// Every turn of the event loop taken apart into elementary moves of the seat.
//
// A handler may break and restore the invariant several times: removing a client activates
// another, an acknowledged disable does the same. The moves are the points in between where the
// seat is consistent again, each with the condition under which the code performs it, so that a
// statement about runs only has to be checked move by move.
module SeatMoves {
  import opened Options
  import opened SeatSpec
  import opened SeatInvariant

  datatype Move =
    | Note(e: Effect)                              // a reply, or a VT configured
    | LookAtVt(vt: int)                            // seat_update_vt
    | Arrive(pid: int)
    | Forget(c: ClientId)
    | Enroll(c: ClientId, session: int)
    | Leave(c: ClientId)
    | AddDevice(c: ClientId, d: Device)
    | AddRef(c: ClientId, i: nat)
    | DropRef(c: ClientId, i: nat)
    | DropMaster(c: ClientId, fails: set<int>)     // seat_drop_client_drm_master
    | RestoreMaster(c: ClientId)                   // seat_restore_client_drm_master
    | FailOpen(c: ClientId, fails: set<int>, left: bool)  // seat_open_client whose send failed
    | Enable(c: ClientId)
    | Disable(c: ClientId, fails: set<int>, sent: Sending)
    | Ack(c: ClientId)
    | Enqueue(c: ClientId)
    | Dequeue
    | AddGroup(vt: int, owner: ClientId)
    | DelGroup(i: nat)
    | AskVt(vt: int)
    | VtMoved(oldVt: int, newVt: int)

  predicate Plain(e: Effect) {
    e.Replied? || e.VtOpened? || e.VtClosed?
  }

  predicate Member(s: Seat, c: ClientId) {
    c in s.order && c in s.clients && s.clients[c].seated
  }

  // When the code performs the move.
  ghost predicate Legal(s: Seat, m: Move) {
    match m
    case Note(e) => Plain(e)
    case LookAtVt(vt) => s.vtBound && vt > 0
    case Arrive(pid) => true
    case Forget(c) => c in s.clients && !s.clients[c].seated
    case Enroll(c, session) =>
      && c in s.clients && !s.clients[c].seated && s.clients[c].session == -1 && session != -1
      && (s.next.Some? ==> s.active.Some?)
      && Listed(s) && (if s.vtBound then session == s.curVt else session >= 1 && session !in SessionSet(s))
      && (s.vtBound && s.active.Some? ==>
            s.active.value in s.clients && s.clients[s.active.value].state == PendingDisable)
    case Leave(c) => Member(s, c) && s.clients[c].devices == [] && (s.next.Some? ==> s.active.Some?)
    case AddDevice(c, d) =>
      && Member(s, c) && s.clients[c].state == Active
      && |s.clients[c].devices| < MAX_SEAT_DEVICES
      && d.id == FreshDeviceId(s.clients[c].devices)
      && d.refCnt == 1 && d.active && !d.revokeFailed
      && IndexOfPath(s.clients[c].devices, d.path) == |s.clients[c].devices|
    case AddRef(c, i) => Member(s, c) && s.clients[c].state == Active && i < |s.clients[c].devices|
    case DropRef(c, i) => Member(s, c) && i < |s.clients[c].devices|
    case DropMaster(c, fails) => s.vtBound && Member(s, c) && s.active == Some(c) && s.clients[c].state == Active
    case RestoreMaster(c) => Member(s, c) && s.active == Some(c) && OwnsVt(s, c, s.curVt)
    case FailOpen(c, fails, left) => s.active.None? && Member(s, c)
    case Enable(c) =>
      && s.active.None? && s.next.None? && Member(s, c) && (s.vtBound ==> OwnsVt(s, c, s.curVt))
      && (s.clients[c].state == New || s.clients[c].state == Disabled)
    case Disable(c, fails, sent) => Member(s, c) && s.active == Some(c) && s.clients[c].state == Active
    case Ack(c) => Member(s, c) && s.active == Some(c) && s.clients[c].state == PendingDisable
    case Enqueue(c) =>
      && !s.vtBound && s.next.None? && s.active.Some? && s.active != Some(c) && Member(s, c)
      && s.active.value in s.clients && s.clients[s.active.value].state == PendingDisable
    case Dequeue => s.active.None?
    case AddGroup(vt, owner) =>
      s.vtBound && Member(s, owner) && vt != s.clients[owner].session && GroupOwner(s.groups, vt).None?
    case DelGroup(i) => i < |s.groups|
    case AskVt(vt) => s.vtBound && vt > 0 && s.pendingVt == 0
    case VtMoved(oldVt, newVt) => true
  }

  // What the move does.
  function Do(s: Seat, m: Move): Seat
    requires Legal(s, m)
  {
    match m
    case Note(e) => Emit(s, e)
    case LookAtVt(vt) => s.(curVt := vt)
    case Arrive(pid) => s.(clients := s.clients[s.nextId := Client(pid, false, -1, New, [])], nextId := s.nextId + 1)
    case Forget(c) => Emit(s.(clients := s.clients - {c}), Gone(c))
    case Enroll(c, session) => Join(s, c, session)
    case Leave(c) => Detach(s, c).(log := s.log)
    case AddDevice(c, d) => Emit(SetDevices(s, c, [d] + s.clients[c].devices), OpenedDevice(c, d.path))
    case AddRef(c, i) =>
      var ds := s.clients[c].devices;
      Emit(SetDevices(s, c, ds[i := ds[i].(refCnt := ds[i].refCnt + 1)]), OpenedDevice(c, ds[i].path))
    case DropRef(c, i) => CloseDevice(s, c, i)
    case DropMaster(c, fails) => SetDevices(s, c, DropDrm(s.clients[c].devices, fails))
    case RestoreMaster(c) => SetDevices(s, c, ActivateAll(s.clients[c].devices))
    case FailOpen(c, fails, left) =>
      SetDevices(if left then Emit(s, EnableLeft(c)) else s, c, DeactivateAll(ActivateAll(s.clients[c].devices), fails))
    case Enable(c) =>
      Emit(SetClient(s, c, s.clients[c].(state := Active, devices := ActivateAll(s.clients[c].devices))),
           EnableSent(c)).(active := Some(c))
    case Disable(c, fails, sent) =>
      var down := DeactivateAll(s.clients[c].devices, fails);
      var s1 := SetClient(s, c, s.clients[c].(state := PendingDisable, devices := down));
      if sent.Delivered? then Emit(s1, DisableSent(c)) else if sent.Left? then Emit(s1, DisableLeft(c)) else s1
    case Ack(c) => Emit(SetClient(s, c, s.clients[c].(state := Disabled)), DisableAcked(c)).(active := None)
    case Enqueue(c) => s.(next := Some(c))
    case Dequeue => s.(next := None)
    case AddGroup(vt, owner) => s.(groups := [GroupVt(vt, owner)] + s.groups)
    case DelGroup(i) => s.(groups := RemoveAt(s.groups, i))
    case AskVt(vt) => Emit(s, VtActivated(vt)).(pendingVt := vt)
    case VtMoved(oldVt, newVt) => Emit(s.(pendingVt := 0, curVt := newVt), VtChanged(oldVt, newVt))
  }

  lemma EmitReady(s: Seat, e: Effect)
    requires Ready(s)
    ensures Ready(Emit(s, e))
  {
  }

  lemma ArriveReady(s: Seat, pid: int)
    requires Ready(s)
    ensures Ready(Do(s, Arrive(pid)))
  {
    hide SessionsOk, GroupsOk;
    ArriveSessions(s, pid);
  }

  lemma ArriveSessions(s: Seat, pid: int)
    requires Ready(s)
    ensures SessionsOk(Do(s, Arrive(pid))) && GroupsOk(Do(s, Arrive(pid)))
  {
    hide ActiveOk, QueueOk;
  }

  lemma ForgetReady(s: Seat, c: ClientId)
    requires Ready(s) && c in s.clients && !s.clients[c].seated
    ensures Ready(Do(s, Forget(c)))
  {
    var t := s.(clients := s.clients - {c});
    assert Ready(t);
    EmitReady(t, Gone(c));
  }

  lemma LeaveReady(s: Seat, c: ClientId)
    requires Ready(s) && Legal(s, Leave(c))
    ensures Ready(Do(s, Leave(c)))
  {
    DetachKeeps(s, c);
  }

  lemma AddGroupReady(s: Seat, vt: int, owner: ClientId)
    requires Ready(s) && Legal(s, AddGroup(vt, owner))
    ensures Ready(Do(s, AddGroup(vt, owner)))
  {
    var groups := [GroupVt(vt, owner)] + s.groups;
    assert forall g :: g in groups ==> g == GroupVt(vt, owner) || g in s.groups;
    OnlyGroups(s, groups);
  }

  // The grouped VTs matter to one part of the invariant only.
  lemma OnlyGroups(s: Seat, groups: seq<GroupVt>)
    requires Ready(s) && GroupsOk(s.(groups := groups))
    ensures Ready(s.(groups := groups))
  {
    hide GroupsOk;
  }

  lemma DelGroupReady(s: Seat, i: nat)
    requires Ready(s) && i < |s.groups|
    ensures Ready(s.(groups := RemoveAt(s.groups, i)))
  {
    var r := RemoveAt(s.groups, i);
    assert forall k :: 0 <= k < |r| ==> r[k] == s.groups[if k < i then k else k + 1];
    assert forall g :: g in r ==> g in s.groups;
    OnlyGroups(s, r);
  }

  predicate MovesDevices(m: Move) {
    m.AddDevice? || m.AddRef? || m.DropRef? || m.DropMaster? || m.RestoreMaster? || m.FailOpen?
  }

  // The table a device move leaves behind.
  function TableAfter(ds: seq<Device>, m: Move): seq<Device>
    requires MovesDevices(m) && ((m.AddRef? || m.DropRef?) ==> m.i < |ds|)
  {
    match m
    case AddDevice(_, d) => [d] + ds
    case AddRef(_, i) => ds[i := ds[i].(refCnt := ds[i].refCnt + 1)]
    case DropRef(_, i) => CloseAt(ds, i)
    case DropMaster(_, fails) => DropDrm(ds, fails)
    case RestoreMaster(_) => ActivateAll(ds)
    case FailOpen(_, fails, _) => DeactivateAll(ActivateAll(ds), fails)
  }

  lemma AddDeviceOk(ds: seq<Device>, d: Device)
    requires DevicesOk(ds) && |ds| < MAX_SEAT_DEVICES && d.id >= 1 && d.refCnt == 1
    requires forall i :: 0 <= i < |ds| ==> ds[i].id < d.id && ds[i].path != d.path
    ensures DevicesOk([d] + ds)
  {
    var r := [d] + ds;
    assert forall i :: 1 <= i < |r| ==> r[i] == ds[i - 1];
  }

  lemma TableAfterOk(ds: seq<Device>, m: Move)
    requires DevicesOk(ds) && MovesDevices(m) && ((m.AddRef? || m.DropRef?) ==> m.i < |ds|)
    requires m.AddDevice? ==>
               && |ds| < MAX_SEAT_DEVICES && m.d.id == FreshDeviceId(ds) && m.d.refCnt == 1
               && IndexOfPath(ds, m.d.path) == |ds|
    ensures DevicesOk(TableAfter(ds, m))
  {
    match m
    case AddDevice(_, d) => AddDeviceOk(ds, d);
    case AddRef(_, i) =>
    case DropRef(_, i) => CloseAtKeeps(ds, i);
    case DropMaster(_, fails) => DeviceMapsKeep(ds, fails);
    case RestoreMaster(_) => DeviceMapsKeep(ds, {});
    case FailOpen(_, fails, _) => DeviceMapsKeep(ds, {}); DeviceMapsKeep(ActivateAll(ds), fails);
  }

  // A device move changes one client's table, and nothing else but the log.
  lemma DeviceMoveIs(s: Seat, m: Move)
    requires Legal(s, m) && MovesDevices(m)
    ensures Member(s, m.c) && ((m.AddRef? || m.DropRef?) ==> m.i < |s.clients[m.c].devices|)
    ensures Do(s, m) == SetDevices(s, m.c, TableAfter(s.clients[m.c].devices, m)).(log := Do(s, m).log)
  {
  }

  lemma DeviceMoveReady(s: Seat, m: Move)
    requires Ready(s) && Legal(s, m) && MovesDevices(m)
    ensures Ready(Do(s, m))
  {
    DeviceMoveIs(s, m);
    TableAfterOk(s.clients[m.c].devices, m);
    SetDevicesKeeps(s, m.c, TableAfter(s.clients[m.c].devices, m));
  }

  lemma EnableReady(s: Seat, c: ClientId)
    requires Ready(s) && Legal(s, Enable(c))
    ensures Ready(Do(s, Enable(c)))
  {
    hide Ready, DevicesOk;
    MemberIs(s, c);
    var r, up := Do(s, Enable(c)), ActivateAll(s.clients[c].devices);
    DeviceMapsKeep(s.clients[c].devices, {});
    EnabledKeeps(s, c, up);
    LogIsFree(SetClient(s, c, s.clients[c].(state := Active, devices := up)).(active := Some(c)), r.log);
  }

  lemma DisableReady(s: Seat, c: ClientId, fails: set<int>, sent: Sending)
    requires Ready(s) && Legal(s, Disable(c, fails, sent))
    ensures Ready(Do(s, Disable(c, fails, sent)))
  {
    hide Ready, DevicesOk;
    MemberIs(s, c);
    var r, down := Do(s, Disable(c, fails, sent)), DeactivateAll(s.clients[c].devices, fails);
    DeviceMapsKeep(s.clients[c].devices, fails);
    SetClientKeeps(s, c, s.clients[c].(state := PendingDisable, devices := down));
    LogIsFree(SetClient(s, c, s.clients[c].(state := PendingDisable, devices := down)), r.log);
  }

  lemma AckReady(s: Seat, c: ClientId)
    requires Ready(s) && Legal(s, Ack(c))
    ensures Ready(Do(s, Ack(c)))
  {
    hide Ready;
    AckedIsReady(s, c);
  }

  lemma OnlyVts(s: Seat, curVt: int, pendingVt: int, log: seq<Effect>)
    requires Ready(s) && pendingVt >= 0 && (!s.vtBound ==> pendingVt == 0)
    ensures Ready(s.(curVt := curVt, pendingVt := pendingVt, log := log))
  {
    hide ClientOk;
  }

  lemma OnlyNext(s: Seat, next: Option<ClientId>)
    requires Ready(s) && QueueOk(s.(next := next))
    ensures Ready(s.(next := next))
  {
    hide QueueOk, ClientOk;
  }

  lemma FieldMoveReady(s: Seat, m: Move)
    requires Ready(s) && Legal(s, m)
    requires m.LookAtVt? || m.Enqueue? || m.Dequeue? || m.AskVt? || m.VtMoved?
    ensures Ready(Do(s, m))
  {
    hide Members, ActiveOk, GroupsOk, SessionsOk;
    var r := Do(s, m);
    if m.Enqueue? || m.Dequeue? { OnlyNext(s, r.next); } else { OnlyVts(s, r.curVt, r.pendingVt, r.log); }
  }

  // The consistency of the seat survives every legal move.
  lemma MoveKeeps(s: Seat, m: Move)
    requires Ready(s) && Legal(s, m)
    ensures Ready(Do(s, m))
  {
    if MovesRoster(m) {
      RosterMoveReady(s, m);
    } else if MovesDevices(m) {
      DeviceMoveReady(s, m);
    } else {
      OtherMoveReady(s, m);
    }
  }

  lemma RosterMoveReady(s: Seat, m: Move)
    requires Ready(s) && Legal(s, m) && MovesRoster(m)
    ensures Ready(Do(s, m))
  {
    if m.Arrive? {
      ArriveReady(s, m.pid);
    } else if m.Forget? {
      ForgetReady(s, m.c);
    } else if m.Enroll? {
      JoinKeeps(s, m.c, m.session);
    } else {
      LeaveReady(s, m.c);
    }
  }

  lemma OtherMoveReady(s: Seat, m: Move)
    requires Ready(s) && Legal(s, m) && !MovesRoster(m) && !MovesDevices(m)
    ensures Ready(Do(s, m))
  {
    hide Ready;
    match m
    case Note(e) => EmitReady(s, e);
    case AddGroup(vt, owner) => AddGroupReady(s, vt, owner);
    case DelGroup(i) => DelGroupReady(s, i);
    case Enable(c) => EnableReady(s, c);
    case Disable(c, fails, sent) => DisableReady(s, c, fails, sent);
    case Ack(c) => AckReady(s, c);
    case _ => FieldMoveReady(s, m);
  }

  // ---------------------------------------------------------------- what a move leaves alone

  // The entries a move appends to the log.
  function Emitted(s: Seat, m: Move): seq<Effect>
    requires Legal(s, m)
  {
    match m
    case Note(e) => [e]
    case Forget(c) => [Gone(c)]
    case AddDevice(c, d) => [OpenedDevice(c, d.path)]
    case AddRef(c, i) => [OpenedDevice(c, s.clients[c].devices[i].path)]
    case DropRef(c, i) => [ClosedDevice(c, s.clients[c].devices[i].path)]
    case Enable(c) => [EnableSent(c)]
    case FailOpen(c, fails, left) => if left then [EnableLeft(c)] else []
    case Disable(c, fails, sent) =>
      if sent.Delivered? then [DisableSent(c)] else if sent.Left? then [DisableLeft(c)] else []
    case Ack(c) => [DisableAcked(c)]
    case AskVt(vt) => [VtActivated(vt)]
    case VtMoved(oldVt, newVt) => [VtChanged(oldVt, newVt)]
    case _ => []
  }

  lemma LogAfter(s: Seat, m: Move)
    requires Legal(s, m)
    ensures Do(s, m).log == s.log + Emitted(s, m)
  {
    hide ActivateAll, DeactivateAll, DropDrm, CloseAt, RemoveAt, SessionSet, FreshDeviceId, IndexOfPath, Without,
         GroupsNotOf;
  }

  predicate MovesState(m: Move) {
    m.Enable? || m.Disable? || m.Ack?
  }

  predicate MovesRoster(m: Move) {
    m.Arrive? || m.Forget? || m.Enroll? || m.Leave?
  }

  // The client a move is about, for the moves that change a client's record.
  predicate Concerns(s: Seat, m: Move, c: ClientId) {
    match m
    case Arrive(_) => c == s.nextId
    case Note(_) => false
    case LookAtVt(_) => false
    case Enqueue(_) => false
    case Dequeue => false
    case AddGroup(_, _) => false
    case DelGroup(_) => false
    case AskVt(_) => false
    case VtMoved(_, _) => false
    case _ => c == m.c
  }

  // Nobody else's record changes.
  lemma OthersStay(s: Seat, m: Move, c: ClientId)
    requires Legal(s, m) && !Concerns(s, m, c)
    ensures c in Do(s, m).clients <==> c in s.clients
    ensures c in s.clients ==> Do(s, m).clients[c] == s.clients[c]
    ensures !m.Arrive? ==> Do(s, m).nextId == s.nextId
    ensures m.Arrive? ==> Do(s, m).nextId == s.nextId + 1
  {
    hide ActivateAll, DeactivateAll, DropDrm, CloseAt, RemoveAt, SessionSet, FreshDeviceId, IndexOfPath, Without,
         GroupsNotOf, Legal;
  }

  // A device move keeps everything of a record but the table.
  lemma StateStays(s: Seat, m: Move, c: ClientId)
    requires Legal(s, m) && !MovesState(m) && !MovesRoster(m)
    ensures c in Do(s, m).clients <==> c in s.clients
    ensures c in s.clients ==> Do(s, m).clients[c] == s.clients[c].(devices := Do(s, m).clients[c].devices)
    ensures Do(s, m).nextId == s.nextId
  {
    hide ActivateAll, DeactivateAll, DropDrm, CloseAt, RemoveAt, SessionSet, FreshDeviceId, IndexOfPath, Without,
         GroupsNotOf;
  }

  // ---------------------------------------------------------------- paths of moves

  ghost predicate Leads(s: Seat, ms: seq<Move>, r: Seat)
    decreases ms
  {
    if ms == [] then s == r
    else Legal(s, ms[0]) && Leads(Do(s, ms[0]), ms[1..], r)
  }

  lemma {:induction false} LeadsOn(s: Seat, a: seq<Move>, t: Seat, b: seq<Move>, r: Seat)
    requires Leads(s, a, t) && Leads(t, b, r)
    ensures Leads(s, a + b, r)
    decreases a
  {
    if a == [] {
      assert a + b == b;
    } else {
      LeadsOn(Do(s, a[0]), a[1..], t, b, r);
      assert (a + b)[1..] == a[1..] + b;
    }
  }

  lemma One(s: Seat, m: Move)
    requires Legal(s, m)
    ensures Leads(s, [m], Do(s, m))
  {
    assert [m][1..] == [];
  }

  lemma EmptyPath(s: Seat)
    ensures Leads(s, [], s)
  {
  }

  // Put one move in front of a path.
  lemma First(s: Seat, m: Move, ms: seq<Move>, r: Seat)
    requires Legal(s, m) && Leads(Do(s, m), ms, r)
    ensures Leads(s, [m] + ms, r)
  {
    assert ([m] + ms)[1..] == ms;
  }

  // Append one move to a path.
  lemma Then(s: Seat, ms: seq<Move>, t: Seat, m: Move)
    requires Leads(s, ms, t) && Legal(t, m)
    ensures Leads(s, ms + [m], Do(t, m))
  {
    One(t, m);
    LeadsOn(s, ms, t, [m], Do(t, m));
  }

  // The outcome of the send in a move, if there is one, is one of these two.
  predicate Sends(m: Move, a: Sending, b: Sending) {
    match m
    case FailOpen(_, _, left) => var x := if left then Left else Dropped; x == a || x == b
    case Disable(_, _, sent) => sent == a || sent == b
    case _ => true
  }

  predicate Honest(ms: seq<Move>, a: Sending, b: Sending) {
    forall i :: 0 <= i < |ms| ==> Sends(ms[i], a, b)
  }

  // There is no send in any of the moves.
  predicate Mute(ms: seq<Move>) {
    forall i :: 0 <= i < |ms| ==> !ms[i].FailOpen? && !ms[i].Disable?
  }

  predicate MovesVt(m: Move) {
    m.LookAtVt? || m.VtMoved? || m.AddGroup? || m.DelGroup?
  }

  // No move touches the current VT or the grouped VTs, restores DRM master or answers a request.
  predicate Inner(ms: seq<Move>) {
    forall i :: 0 <= i < |ms| ==>
      !ms[i].RestoreMaster? && !MovesVt(ms[i]) && !(ms[i].Note? && ms[i].e.Replied?)
  }

  // No move answers a request.
  predicate Silent(ms: seq<Move>) {
    forall i :: 0 <= i < |ms| ==> !(ms[i].Note? && ms[i].e.Replied?)
  }

  // Only the first move touches a VT; none restores DRM master.
  predicate Outer(ms: seq<Move>) {
    forall i :: 0 <= i < |ms| ==> !ms[i].RestoreMaster? && (i > 0 ==> !MovesVt(ms[i]))
  }

  lemma OpenOnMoves(s: Seat, c: ClientId, vt: int, io: Io) returns (ms: seq<Move>)
    requires Member(s, c) && s.active.None? && s.next.None? && (s.vtBound ==> OwnsVt(s, c, s.curVt))
    requires s.clients[c].state == New || s.clients[c].state == Disabled
    ensures Leads(s, ms, OpenOn(s, c, vt, io)) && Inner(ms) && Honest(ms, io.send, io.send)
  {
    if io.send.Delivered? {
      ms := [Enable(c)];
      One(s, Enable(c));
    } else {
      ms := [FailOpen(c, io.revokeFails, io.send.Left?)];
      One(s, ms[0]);
      var t := Do(s, ms[0]);
      if s.vtBound {
        Then(s, ms, t, Note(VtClosed(vt)));
        ms := ms + [Note(VtClosed(vt))];
      }
    }
  }

  lemma OpenClientMoves(s: Seat, c: ClientId, io: Io) returns (ms: seq<Move>)
    requires Member(s, c) && (s.active.None? ==> s.next.None? && (s.vtBound ==> OwnsVt(s, c, s.curVt)))
    requires s.active.None? ==> s.clients[c].state == New || s.clients[c].state == Disabled
    ensures Leads(s, ms, OpenClient(s, c, io)) && Inner(ms) && Honest(ms, io.send, io.send)
  {
    ms := [];
    if s.active.Some? { return; }
    if !s.vtBound {
      ms := OpenOnMoves(s, c, s.clients[c].session, io);
    } else if io.vtOpen {
      var open := Note(VtOpened(VtForOpen(s, c)));
      One(s, open);
      var t := Emit(s, open.e);
      var more := OpenOnMoves(t, c, VtForOpen(s, c), io);
      ms := [open] + more;
      LeadsOn(s, [open], t, more, OpenClient(s, c, io));
    }
  }

  lemma ActivateMoves(s: Seat, io: Io) returns (ms: seq<Move>)
    requires Ready(s)
    ensures Leads(s, ms, Activate(s, io)) && Inner(ms) && Honest(ms, io.send, io.send)
  {
    hide Legal, Candidate;
    ms := [];
    var chosen := Candidate(s);
    if s.active.None? && chosen.Some? {
      One(s, Dequeue);
      var t := s.(next := None);
      var more := OpenClientMoves(t, chosen.value, io);
      ms := [Dequeue] + more;
      LeadsOn(s, [Dequeue], t, more, Activate(s, io));
    }
  }

  lemma DisableMoves(s: Seat, c: ClientId, io: Io) returns (ms: seq<Move>)
    requires Member(s, c) && s.active == Some(c)
    ensures Leads(s, ms, DisableClient(s, c, io)) && Inner(ms) && Honest(ms, io.send, io.send)
  {
    ms := [];
    if s.clients[c].state == Active {
      ms := [Disable(c, io.revokeFails, io.send)];
      One(s, ms[0]);
    }
  }

  lemma AckIs(s: Seat, c: ClientId, io: Io)
    requires Inv(s) && c in s.order && s.clients[c].state == PendingDisable
    ensures Legal(s, Ack(c)) && Ready(Do(s, Ack(c)))
    ensures AckDisable(s, c, io).s == Activate(Do(s, Ack(c)), io)
  {
    AckReady(s, c);
  }

  lemma AckedMoves(s: Seat, c: ClientId, io: Io) returns (ms: seq<Move>)
    requires Inv(s) && c in s.order && s.clients[c].state == PendingDisable
    ensures Leads(s, ms, AckDisable(s, c, io).s) && Inner(ms) && Honest(ms, io.send, io.send)
  {
    AckIs(s, c, io);
    var more := ActivateMoves(Do(s, Ack(c)), io);
    First(s, Ack(c), more, AckDisable(s, c, io).s);
    AckFirst(c, more, io.send);
    ms := [Ack(c)] + more;
  }

  lemma AckFirst(c: ClientId, more: seq<Move>, x: Sending)
    requires Inner(more)
    ensures Inner([Ack(c)] + more) && (Honest(more, x, x) ==> Honest([Ack(c)] + more, x, x))
  {
  }

  lemma AckMoves(s: Seat, c: ClientId, io: Io) returns (ms: seq<Move>)
    requires Inv(s) && c in s.order
    ensures Leads(s, ms, AckDisable(s, c, io).s) && Inner(ms) && Honest(ms, io.send, io.send)
  {
    if s.clients[c].state == PendingDisable { ms := AckedMoves(s, c, io); } else { ms := []; }
  }

  // ---------------------------------------------------------------- membership

  // The state after the removal loop has emptied the device table.
  function Emptied(s: Seat, c: ClientId): Seat
    requires c in s.clients
  {
    SetDevices(s, c, []).(log := s.log + ClosesOf(c, s.clients[c].devices))
  }

  lemma EmptiedStep(s: Seat, c: ClientId)
    requires c in s.clients && s.clients[c].devices != []
    ensures Emptied(CloseDevice(s, c, 0), c) == Emptied(s, c)
  {
    var ds := s.clients[c].devices;
    var t := CloseDevice(s, c, 0);
    assert t.clients[c].devices == CloseAt(ds, 0);
    assert t.log + ClosesOf(c, CloseAt(ds, 0)) == s.log + ClosesOf(c, ds);
    assert t.clients[c := t.clients[c].(devices := [])] == s.clients[c := s.clients[c].(devices := [])];
  }

  lemma EmptiedNothing(s: Seat, c: ClientId)
    requires c in s.clients && s.clients[c].devices == []
    ensures Emptied(s, c) == s
  {
    assert s.clients == s.clients[c := s.clients[c].(devices := [])];
    assert s.log + [] == s.log;
  }

  // The removal loop as moves: references of the first device are dropped until it is gone.
  lemma {:induction false} CloseAllMoves(s: Seat, c: ClientId) returns (ms: seq<Move>)
    requires Member(s, c)
    ensures Leads(s, ms, Emptied(s, c)) && Inner(ms) && Mute(ms)
    decreases Weight(s.clients[c].devices)
  {
    if s.clients[c].devices == [] {
      ms := [];
      EmptiedNothing(s, c);
    } else {
      var m := DropRef(c, 0);
      One(s, m);
      CloseAtLowersWeight(s.clients[c].devices);
      EmptiedStep(s, c);
      var more := CloseAllMoves(CloseDevice(s, c, 0), c);
      ms := [m] + more;
      LeadsOn(s, [m], CloseDevice(s, c, 0), more, Emptied(s, c));
    }
  }

  lemma {:induction false} NotesMoves(s: Seat, es: seq<Effect>) returns (ms: seq<Move>)
    requires forall i :: 0 <= i < |es| ==> es[i].VtOpened? || es[i].VtClosed?
    ensures Leads(s, ms, s.(log := s.log + es))
    ensures Inner(ms) && Mute(ms)
  {
    if es == [] {
      ms := [];
      assert s.log + es == s.log;
    } else {
      var n := |es| - 1;
      ms := NotesMoves(s, es[..n]);
      Then(s, ms, s.(log := s.log + es[..n]), Note(es[n]));
      ms := ms + [Note(es[n])];
      assert s.log + es == s.log + es[..n] + [es[n]];
    }
  }

  lemma DetachIs(s: Seat, c: ClientId)
    requires c in s.clients
    ensures var t := Emptied(s, c);
            var u := t.(log := t.log + if s.vtBound then GroupsOfClosed(s.groups, c) else []);
            Detach(u, c).(log := u.log) == Detach(s, c)
  {
    hide ClosesOf, GroupsOfClosed, Without, GroupsNotOf;
    var t := Emptied(s, c);
    var gone := s.clients[c].(seated := false, state := Closed, devices := []);
    assert t.clients[c := gone] == s.clients[c := gone];
  }

  // The seat just before the client is unlinked.
  function Stripped(s: Seat, c: ClientId): Seat
    requires c in s.clients
  {
    var t := Emptied(s, c);
    t.(log := t.log + if s.vtBound then GroupsOfClosed(s.groups, c) else [])
  }

  lemma StrippedLeaves(s: Seat, c: ClientId)
    requires Member(s, c) && (s.next.Some? ==> s.active.Some?)
    ensures Legal(Stripped(s, c), Leave(c)) && Do(Stripped(s, c), Leave(c)) == Detach(s, c)
  {
    DetachIs(s, c);
  }

  lemma StripMoves(s: Seat, c: ClientId) returns (ms: seq<Move>)
    requires Member(s, c)
    ensures Leads(s, ms, Stripped(s, c)) && Inner(ms) && Mute(ms)
  {
    ms := CloseAllMoves(s, c);
    var notes := NotesMoves(Emptied(s, c), if s.vtBound then GroupsOfClosed(s.groups, c) else []);
    LeadsOn(s, ms, Emptied(s, c), notes, Stripped(s, c));
    ms := ms + notes;
  }

  lemma DetachMoves(s: Seat, c: ClientId) returns (ms: seq<Move>)
    requires Member(s, c) && (s.next.Some? ==> s.active.Some?)
    ensures Leads(s, ms, Detach(s, c)) && Inner(ms) && Mute(ms)
  {
    ms := StripMoves(s, c);
    StrippedLeaves(s, c);
    Then(s, ms, Stripped(s, c), Leave(c));
    ms := ms + [Leave(c)];
  }

  lemma VacateMoves(s: Seat, c: ClientId, io: Io) returns (ms: seq<Move>)
    requires Inv(s) && c in s.order
    ensures Leads(s, ms, Vacate(s, c, io)) && Inner(ms) && Honest(ms, io.send, io.send)
  {
    hide Detach;
    ms := DetachMoves(s, c);
    if s.active == Some(c) {
      DetachKeeps(s, c);
      var more := ActivateMoves(Detach(s, c), io);
      LeadsOn(s, ms, Detach(s, c), more, Vacate(s, c, io));
      ms := ms + more;
    }
  }

  lemma RemoveMoves(s: Seat, c: ClientId, io: Io) returns (ms: seq<Move>)
    requires Inv(s) && c in s.order
    ensures Leads(s, ms, RemoveClient(s, c, io)) && Inner(ms) && Honest(ms, io.send, io.send)
  {
    hide Vacate, Leads;
    ms := VacateMoves(s, c, io);
    if RemoveClient(s, c, io) != Vacate(s, c, io) {
      var m := Note(VtClosed(s.clients[c].session));
      Then(s, ms, Vacate(s, c, io), m);
      ms := ms + [m];
    }
  }

  lemma AddClientMoves(s: Seat, c: ClientId, io: Io) returns (ms: seq<Move>)
    requires Inv(s) && c in s.clients
    ensures Leads(s, ms, AddClient(s, c, io).s) && Outer(ms) && Mute(ms)
  {
    ms := [];
    var added := AddClient(s, c, io);
    if added.s == s { return; }
    if s.vtBound {
      ms := AddOnVtMoves(s, c, io);
    } else {
      ms := [Enroll(c, MinFree(SessionSet(s), 1))];
      One(s, ms[0]);
    }
  }

  lemma AddOnVtMoves(s: Seat, c: ClientId, io: Io) returns (ms: seq<Move>)
    requires Inv(s) && c in s.clients && !s.clients[c].seated && s.clients[c].session == -1 && s.vtBound
    requires s.active.Some? ==> s.clients[s.active.value].state == PendingDisable
    ensures Leads(s, ms, JoinOnVt(UpdateVt(s, io.vt), c).s) && Outer(ms) && Mute(ms)
  {
    ms := [];
    var t := UpdateVt(s, io.vt);
    if t != s {
      One(s, LookAtVt(io.vt));
      ms := [LookAtVt(io.vt)];
    }
    if JoinOnVt(t, c).ok {
      Then(s, ms, t, Enroll(c, t.curVt));
      ms := ms + [Enroll(c, t.curVt)];
    }
  }

  // ---------------------------------------------------------------- requests

  lemma AnswerMoves(s: Seat, ms0: seq<Move>, t: Seat, c: ClientId, reply: Reply, io: Io) returns (ms: seq<Move>)
    requires Leads(s, ms0, t)
    ensures Leads(s, ms, Answer(t, c, reply, io).s)
    ensures Outer(ms0) ==> Outer(ms)
    ensures forall x :: Honest(ms0, x, x) ==> Honest(ms, x, x)
    ensures Mute(ms0) ==> Mute(ms)
  {
    ms := ms0;
    if io.put {
      Then(s, ms0, t, Note(Replied(c, reply)));
      ms := ms0 + [Note(Replied(c, reply))];
    }
  }

  lemma AddedIsReady(s: Seat, c: ClientId, io: Io)
    requires Inv(s) && c in s.clients && AddClient(s, c, io).ok
    ensures var r := Emit(AddClient(s, c, io).s, Replied(c, SeatOpened));
            && Member(r, c) && (r.active.None? ==> r.next.None?)
            && (r.active.None? ==> r.clients[c].state == New || r.clients[c].state == Disabled)
  {
    AddClientKeeps(s, c, io);
    EmitKeeps(AddClient(s, c, io).s, Replied(c, SeatOpened));
  }

  lemma AddedOwnsVt(s: Seat, c: ClientId, io: Io)
    requires c in s.clients && Linked(s) && AddClient(s, c, io).ok
    ensures var r := Emit(AddClient(s, c, io).s, Replied(c, SeatOpened));
            c in r.clients && (r.vtBound ==> OwnsVt(r, c, r.curVt))
  {
  }

  lemma OpenAddedMoves(s: Seat, c: ClientId, io: Io) returns (ms: seq<Move>)
    requires Inv(s) && c in s.clients && AddClient(s, c, io).ok
    ensures var r := Emit(AddClient(s, c, io).s, Replied(c, SeatOpened));
            Leads(r, ms, OpenClient(r, c, io))
    ensures Inner(ms) && Honest(ms, io.send, io.send)
  {
    AddedIsReady(s, c, io);
    AddedOwnsVt(s, c, io);
    ms := OpenClientMoves(Emit(AddClient(s, c, io).s, Replied(c, SeatOpened)), c, io);
  }

  lemma ToldMoves(s: Seat, c: ClientId, io: Io) returns (ms: seq<Move>)
    requires Inv(s) && c in s.clients && AddClient(s, c, io).ok
    ensures Leads(s, ms, Emit(AddClient(s, c, io).s, Replied(c, SeatOpened))) && Outer(ms) && Mute(ms)
  {
    hide Leads;
    ms := AddClientMoves(s, c, io);
    Then(s, ms, AddClient(s, c, io).s, Note(Replied(c, SeatOpened)));
    ms := ms + [Note(Replied(c, SeatOpened))];
  }

  lemma OpenSeatIs(s: Seat, c: ClientId, io: Io)
    requires c in s.clients && Linked(s) && AddClient(s, c, io).ok && io.put
    ensures c in AddClient(s, c, io).s.clients
    ensures HandleOpenSeat(s, c, io).s == OpenClient(Emit(AddClient(s, c, io).s, Replied(c, SeatOpened)), c, io)
  {
  }

  lemma OpenSeatMoves(s: Seat, c: ClientId, io: Io) returns (ms: seq<Move>)
    requires Inv(s) && c in s.clients
    ensures Leads(s, ms, HandleOpenSeat(s, c, io).s) && Outer(ms) && Honest(ms, io.send, io.send)
  {
    hide Leads;
    if AddClient(s, c, io).ok && io.put {
      OpenSeatIs(s, c, io);
      ms := ToldMoves(s, c, io);
      var more := OpenAddedMoves(s, c, io);
      LeadsOn(s, ms, Emit(AddClient(s, c, io).s, Replied(c, SeatOpened)), more, HandleOpenSeat(s, c, io).s);
      ms := ms + more;
    } else {
      ms := AddClientMoves(s, c, io);
    }
  }

  // The move behind a successful seat_open_device.
  function OpenDeviceMove(s: Seat, c: ClientId, io: Io): Move
    requires c in s.clients && io.resolved.Some?
  {
    var ds := s.clients[c].devices;
    var Node(path, kind) := io.resolved.value;
    var i := IndexOfPath(ds, path);
    if i < |ds| then AddRef(c, i) else AddDevice(c, Device(FreshDeviceId(ds), path, kind, 1, true, false))
  }

  lemma OpenDeviceIs(s: Seat, c: ClientId, io: Io)
    requires Member(s, c) && OpenDevice(s, c, io).at.Some?
    ensures Legal(s, OpenDeviceMove(s, c, io))
    ensures Do(s, OpenDeviceMove(s, c, io)) == OpenDevice(s, c, io).s
  {
  }

  lemma OpenThenDrop(s: Seat, c: ClientId, io: Io) returns (ms: seq<Move>)
    requires Member(s, c) && OpenDevice(s, c, io).at.Some?
    ensures var got := OpenDevice(s, c, io); var r := CloseDevice(got.s, c, got.at.value); Leads(s, ms, r)
    ensures Inner(ms) && Mute(ms)
  {
    hide CloseDevice, Legal, Leads;
    var got := OpenDevice(s, c, io);
    OpenDeviceIs(s, c, io);
    One(s, OpenDeviceMove(s, c, io));
    Then(s, [OpenDeviceMove(s, c, io)], got.s, DropRef(c, got.at.value));
    ms := [OpenDeviceMove(s, c, io)] + [DropRef(c, got.at.value)];
  }

  lemma OpenDeviceMoves(s: Seat, c: ClientId, io: Io) returns (ms: seq<Move>)
    requires Member(s, c) && OpenDevice(s, c, io).at.Some?
    ensures Leads(s, ms, OpenDevice(s, c, io).s)
    ensures Inner(ms) && Mute(ms)
  {
    OpenDeviceIs(s, c, io);
    One(s, OpenDeviceMove(s, c, io));
    ms := [OpenDeviceMove(s, c, io)];
  }

  lemma HandleOpenDeviceMoves(s: Seat, c: ClientId, io: Io) returns (ms: seq<Move>)
    requires Member(s, c)
    ensures Leads(s, ms, HandleOpenDevice(s, c, io).s) && Outer(ms) && Mute(ms)
  {
    var got := OpenDevice(s, c, io);
    if got.at.None? {
      ms := AnswerMoves(s, [], s, c, Error, io);
    } else if !io.dup {
      ms := OpenThenDrop(s, c, io);
      ms := AnswerMoves(s, ms, CloseDevice(got.s, c, got.at.value), c, Error, io);
    } else {
      ms := OpenDeviceMoves(s, c, io);
      if io.putFd {
        ms := AnswerMoves(s, ms, got.s, c, DeviceOpened(got.s.clients[c].devices[got.at.value].id), io);
      }
    }
  }

  lemma HandleCloseDeviceMoves(s: Seat, c: ClientId, id: int, io: Io) returns (ms: seq<Move>)
    requires Member(s, c)
    ensures Leads(s, ms, HandleCloseDevice(s, c, id, io).s) && Outer(ms) && Mute(ms)
  {
    var i := IndexOfId(s.clients[c].devices, id);
    if id == 0 || i == |s.clients[c].devices| {
      ms := AnswerMoves(s, [], s, c, Error, io);
    } else {
      One(s, DropRef(c, i));
      ms := AnswerMoves(s, [DropRef(c, i)], CloseDevice(s, c, i), c, DeviceClosed, io);
    }
  }

  lemma QueueIs(s: Seat, c: ClientId, session: int, io: Io)
    requires Inv(s) && c in s.order && !s.vtBound && SetNextSession(s, c, session, io).s != s
    ensures var m := Disable(c, io.revokeFails, io.send);
            var i := IndexOfSession(s, session, 0);
            && i < |s.order| && s.order[i] != c
            && Legal(s, m) && Legal(Do(s, m), Enqueue(s.order[i]))
            && Do(Do(s, m), Enqueue(s.order[i])) == SetNextSession(s, c, session, io).s
  {
    hide Ready, IndexOfSession, DeactivateAll;
    MemberIs(s, c);
    MemberIs(s, s.order[IndexOfSession(s, session, 0)]);
  }

  lemma QueueMoves(s: Seat, c: ClientId, session: int, io: Io) returns (ms: seq<Move>)
    requires Inv(s) && c in s.order && !s.vtBound && SetNextSession(s, c, session, io).s != s
    ensures Leads(s, ms, SetNextSession(s, c, session, io).s) && Inner(ms) && Honest(ms, io.send, io.send)
  {
    hide Do, Leads, Legal;
    var m := Disable(c, io.revokeFails, io.send);
    QueueIs(s, c, session, io);
    var target := s.order[IndexOfSession(s, session, 0)];
    One(s, m);
    Then(s, [m], Do(s, m), Enqueue(target));
    ms := [m] + [Enqueue(target)];
  }

  lemma SetNextSessionMoves(s: Seat, c: ClientId, session: int, io: Io) returns (ms: seq<Move>)
    requires Inv(s) && c in s.order
    ensures Leads(s, ms, SetNextSession(s, c, session, io).s) && Inner(ms) && Honest(ms, io.send, io.send)
  {
    if SetNextSession(s, c, session, io).s == s {
      ms := [];
    } else if s.vtBound {
      ms := [AskVt(session)];
      One(s, AskVt(session));
    } else {
      ms := QueueMoves(s, c, session, io);
    }
  }

  lemma HandleMoves(s: Seat, c: ClientId, req: Request, io: Io) returns (ms: seq<Move>)
    requires Inv(s) && c in s.clients
    ensures Leads(s, ms, Handle(s, c, req, io).s) && Outer(ms) && Honest(ms, io.send, io.send)
  {
    hide Do, RemoveClient, Legal, SetNextSession;
    if req == OpenSeatReq {
      ms := OpenSeatMoves(s, c, io);
    } else if req == PingReq {
      ms := AnswerMoves(s, [], s, c, Pong, io);
    } else if !s.clients[c].seated {
      ms := [];
    } else {
      match req
      case PingReq =>
      case OpenSeatReq =>
      case CloseSeatReq =>
        ms := RemoveMoves(s, c, io);
        ms := AnswerMoves(s, ms, RemoveClient(s, c, io), c, SeatClosed, io);
      case OpenDeviceReq => ms := HandleOpenDeviceMoves(s, c, io);
      case CloseDeviceReq(id) => ms := HandleCloseDeviceMoves(s, c, id, io);
      case DisableSeatReq =>
        ms := AckMoves(s, c, io);
        var acked := AckDisable(s, c, io);
        ms := AnswerMoves(s, ms, acked.s, c, if acked.ok then SeatDisabled else Error, io);
      case SwitchSessionReq(session) =>
        ms := SetNextSessionMoves(s, c, session, io);
        var queued := SetNextSession(s, c, session, io);
        ms := AnswerMoves(s, ms, queued.s, c, if queued.ok then SessionSwitched else Error, io);
    }
  }

  lemma ForgetMoves(s: Seat, ms0: seq<Move>, t: Seat, c: ClientId) returns (ms: seq<Move>)
    requires Leads(s, ms0, t) && c in t.clients && !t.clients[c].seated
    ensures ms == ms0 + [Forget(c)] && Leads(s, ms, Emit(t.(clients := t.clients - {c}), Gone(c)))
  {
    Then(s, ms0, t, Forget(c));
    ms := ms0 + [Forget(c)];
  }

  lemma RemovedIsIdle(s: Seat, c: ClientId, io: Io)
    requires Inv(s) && c in s.order
    ensures var r := RemoveClient(s, c, io); c in r.clients && !r.clients[c].seated
  {
    RemoveClientKeeps(s, c, io);
  }

  lemma DestroySeatedMoves(s: Seat, c: ClientId, io: Io) returns (ms: seq<Move>)
    requires Inv(s) && c in s.order
    ensures var t := RemoveClient(s, c, io); Leads(s, ms, Emit(t.(clients := t.clients - {c}), Gone(c)))
    ensures Inner(ms) && Honest(ms, io.send, io.send)
  {
    hide RemoveClient;
    var leave := RemoveMoves(s, c, io);
    RemovedIsIdle(s, c, io);
    ms := ForgetMoves(s, leave, RemoveClient(s, c, io), c);
  }

  lemma DestroyMoves(s: Seat, c: ClientId, io: Io) returns (ms: seq<Move>)
    requires Inv(s) && c in s.clients
    ensures Leads(s, ms, Destroy(s, c, io)) && Inner(ms) && Honest(ms, io.send, io.send)
  {
    if s.clients[c].seated {
      ms := DestroySeatedMoves(s, c, io);
    } else {
      ms := ForgetMoves(s, [], s, c);
    }
  }

  // ---------------------------------------------------------------- turns

  lemma FailedMoves(s: Seat, c: ClientId, req: Request, io: Io, io2: Io) returns (ms: seq<Move>)
    requires Inv(s) && c in s.clients
    requires Inv(Handle(s, c, req, io).s) && c in Handle(s, c, req, io).s.clients
    ensures Leads(s, ms, Destroy(Handle(s, c, req, io).s, c, io2)) && Outer(ms) && Honest(ms, io.send, io2.send)
  {
    var t := Handle(s, c, req, io).s;
    ms := HandleMoves(s, c, req, io);
    var more := DestroyMoves(t, c, io2);
    OuterThenInner(s, ms, t, more, Destroy(t, c, io2), io.send, io2.send);
    ms := ms + more;
  }

  lemma OuterThenInner(s: Seat, a: seq<Move>, t: Seat, b: seq<Move>, r: Seat, x: Sending, y: Sending)
    requires Leads(s, a, t) && Leads(t, b, r) && Outer(a) && Inner(b) && Honest(a, x, x) && Honest(b, y, y)
    ensures Leads(s, a + b, r) && Outer(a + b) && Honest(a + b, x, y)
  {
    LeadsOn(s, a, t, b, r);
  }

  lemma ServeMoves(s: Seat, c: ClientId, req: Request, io: Io, io2: Io) returns (ms: seq<Move>)
    requires Inv(s)
    ensures Leads(s, ms, ServeClient(s, c, req, io, io2)) && Outer(ms) && Honest(ms, io.send, io2.send)
  {
    hide Do;
    if c !in s.clients {
      ms := [];
    } else {
      HandleKeeps(s, c, req, io);
      if Handle(s, c, req, io).ok && io.flush {
        ms := HandleMoves(s, c, req, io);
      } else {
        ms := FailedMoves(s, c, req, io, io2);
      }
    }
  }

  lemma FollowVtMoves(s: Seat, io: Io) returns (ms: seq<Move>)
    requires Inv(s)
    ensures Silent(ms) && Leads(s, ms, FollowVt(s, io)) && Honest(ms, io.send, io.send)
    ensures forall i :: 0 <= i < |ms| ==> !MovesVt(ms[i])
    ensures forall i :: 0 <= i < |ms| && ms[i].RestoreMaster? ==>
            s.active == Some(ms[i].c) && OwnsVt(s, ms[i].c, s.curVt)
  {
    if s.active.None? {
      ms := ActivateMoves(s, io);
    } else if OwnsVt(s, s.active.value, s.curVt) {
      ms := [RestoreMaster(s.active.value)];
      One(s, ms[0]);
    } else {
      ms := DisableMoves(s, s.active.value, io);
    }
  }

  lemma VtEventIs(s: Seat, oldVt: int, newVt: int, io: Io)
    requires Inv(s)
    ensures var t := Do(s, VtMoved(oldVt, newVt));
            Inv(t) && t.clients == s.clients && t.active == s.active && t.groups == s.groups && t.curVt == newVt
            && VtEvent(s, oldVt, newVt, io) == FollowVt(t, io)
  {
  }

  lemma VtEventMoves(s: Seat, oldVt: int, newVt: int, io: Io) returns (ms: seq<Move>)
    requires Inv(s)
    ensures Silent(ms) && Leads(s, ms, VtEvent(s, oldVt, newVt, io)) && Honest(ms, io.send, io.send)
    ensures forall i :: 1 <= i < |ms| ==> !MovesVt(ms[i])
    ensures forall i :: 0 <= i < |ms| && ms[i].RestoreMaster? ==> s.active == Some(ms[i].c) && OwnsVt(s, ms[i].c, newVt)
  {
    hide Do, VtEvent, Leads;
    var m := VtMoved(oldVt, newVt);
    VtEventIs(s, oldVt, newVt, io);
    var more := FollowVtMoves(Do(s, m), io);
    One(s, m);
    LeadsOn(s, [m], Do(s, m), more, VtEvent(s, oldVt, newVt, io));
    ms := [m] + more;
  }

  lemma CreateMoves(s: Seat, pid: int, vt: int, io: Io) returns (ms: seq<Move>)
    requires Inv(s)
    ensures Silent(ms) && Leads(s, ms, ControlGroup(s, pid, vt, io)) && Outer(ms) && Mute(ms)
  {
    hide Ready, Leads, GroupOwner, IndexOfPid;
    IsLinked(s);
    var r := ControlGroup(s, pid, vt, io);
    ms := [];
    EmptyPath(s);
    if r != s {
      MemberIs(s, s.order[IndexOfPid(s, pid, 0)]);
      var g := r.groups[0];
      var m := AddGroup(g.vt, g.owner);
      One(s, m);
      Then(s, [m], Do(s, m), Note(VtOpened(g.vt)));
      ms := [m] + [Note(VtOpened(g.vt))];
    }
  }

  lemma DeleteMoves(s: Seat, vt: int) returns (ms: seq<Move>)
    requires Inv(s)
    ensures Silent(ms) && Leads(s, ms, DestroyGroupVt(s, vt).s) && Outer(ms) && Mute(ms)
  {
    hide Handle, IndexOfGroup;
    ms := [];
    var i := IndexOfGroup(s.groups, vt);
    if i < |s.groups| {
      One(s, DelGroup(i));
      Then(s, [DelGroup(i)], Do(s, DelGroup(i)), Note(VtClosed(vt)));
      ms := [DelGroup(i)] + [Note(VtClosed(vt))];
    }
  }

  lemma SwitchMoves(s: Seat, vt: int, io: Io) returns (ms: seq<Move>)
    requires Inv(s)
    ensures Silent(ms) && Leads(s, ms, SwitchVt(s, vt, io).s) && Outer(ms) && Mute(ms)
  {
    ms := [];
    if s.vtBound && vt > 0 && io.vt > 0 {
      One(s, LookAtVt(io.vt));
      ms := [LookAtVt(io.vt)];
      if io.vt != vt && s.pendingVt == 0 && io.vtSwitch {
        Then(s, ms, Do(s, LookAtVt(io.vt)), AskVt(vt));
        ms := ms + [AskVt(vt)];
      }
    }
  }

  lemma LookMoves(s: Seat, io: Io) returns (ms: seq<Move>)
    ensures Silent(ms) && Leads(s, ms, VtAcquire(s, io)) && Outer(ms) && Mute(ms)
  {
    ms := [];
    if s.vtBound && io.vt > 0 {
      One(s, LookAtVt(io.vt));
      ms := [LookAtVt(io.vt)];
    }
  }

  lemma ReleaseMoves(s: Seat, io: Io) returns (ms: seq<Move>)
    requires Inv(s)
    ensures Silent(ms) && Leads(s, ms, VtRelease(s, io)) && Outer(ms) && Mute(ms)
  {
    hide Leads, Ready;
    IsLinked(s);
    ms := LookMoves(s, io);
    var t, r := VtAcquire(s, io), VtRelease(s, io);
    if r != t {
      MemberIs(s, s.active.value);
      var m := DropMaster(s.active.value, io.revokeFails);
      Then(s, ms, t, m);
      ms := ms + [m];
    }
  }

  // Every turn of the daemon is a path of legal moves. Only its first move can change which VT is
  // current or grouped, it has no failed send unless a send failed, it answers nobody unless it
  // serves a request, and it restores DRM master only for an owner of the VT an event announced.
  lemma TurnMoves(s: Seat, step: Step, io: Io, io2: Io) returns (ms: seq<Move>)
    requires Inv(s)
    ensures Leads(s, ms, Next(s, step, io, io2)) && (!step.Serve? ==> Silent(ms))
    ensures forall i :: 1 <= i < |ms| ==> !MovesVt(ms[i])
    ensures Honest(ms, io.send, io2.send)
    ensures forall i :: 0 <= i < |ms| && ms[i].RestoreMaster? ==>
              step.Event? && s.active == Some(ms[i].c) && OwnsVt(s, ms[i].c, step.newVt)
  {
    hide Inv, Handle, Legal;
    match step
    case Connect(pid) => One(s, Arrive(pid)); ms := [Arrive(pid)];
    case Serve(c, req) => ms := ServeMoves(s, c, req, io, io2);
    case Disconnect(c) => if c in s.clients { ms := DestroyMoves(s, c, io2); } else { ms := []; }
    case Event(oldVt, newVt) => ms := VtEventMoves(s, oldVt, newVt, io);
    case ControlCreate(pid, vt) => ms := CreateMoves(s, pid, vt, io);
    case ControlDestroy(vt) => ms := DeleteMoves(s, vt);
    case ControlSwitch(vt) => ms := SwitchMoves(s, vt, io);
    case SignalRelease => ms := ReleaseMoves(s, io);
    case ControlActiveVt => ms := LookMoves(s, io);
    case SignalAcquire => ms := LookMoves(s, io);
  }
}
