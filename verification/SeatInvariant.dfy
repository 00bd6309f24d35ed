// What every operation of the seat keeps, and the transition function of the whole daemon.
module SeatInvariant {
  import opened Options
  import opened SeatSpec

  // A device table: positive distinct ids, distinct paths, live references, bounded size.
  ghost predicate DevicesOk(ds: seq<Device>) {
    && |ds| <= MAX_SEAT_DEVICES
    && (forall i :: 0 <= i < |ds| ==> ds[i].id >= 1 && ds[i].refCnt >= 1)
    && (forall i, j :: 0 <= i < j < |ds| ==> ds[i].id != ds[j].id && ds[i].path != ds[j].path)
  }

  predicate Holding(state: ClientState) {
    state == Active || state == PendingDisable
  }

  ghost predicate ClientOk(cl: Client) {
    && DevicesOk(cl.devices)
    && (cl.seated ==> cl.state != Closed && cl.session != -1)
    && (!cl.seated ==> cl.devices == [] && if cl.session == -1 then cl.state == New else cl.state == Closed)
  }

  ghost predicate Members(s: Seat) {
    && Distinct(s.order)
    && Listed(s)
    && (forall c :: c in s.clients ==> c < s.nextId && ClientOk(s.clients[c]))
    && (forall c :: c in s.clients ==> (s.clients[c].seated <==> c in s.order))
  }

  // A member is ACTIVE or PENDING_DISABLE exactly when it is the active client.
  ghost predicate ActiveOk(s: Seat) {
    && (s.active.Some? ==> s.active.value in s.order)
    && (forall c :: c in s.clients && s.clients[c].seated ==> (Holding(s.clients[c].state) <==> s.active == Some(c)))
  }

  ghost predicate QueueOk(s: Seat) {
    s.next.Some? ==>
      && !s.vtBound
      && s.next.value in s.order
      && (s.active.Some? ==>
            s.active != s.next && s.active.value in s.clients && s.clients[s.active.value].state == PendingDisable)
  }

  ghost predicate GroupsOk(s: Seat) {
    && (s.groups != [] ==> s.vtBound)
    && (forall i, j :: 0 <= i < j < |s.groups| ==> s.groups[i].vt != s.groups[j].vt)
    && (forall g :: g in s.groups ==>
          g.owner in s.order && g.owner in s.clients && s.clients[g.owner].session != g.vt)
  }

  ghost predicate SessionsOk(s: Seat) {
    !s.vtBound ==>
      && (forall c :: c in s.clients && s.clients[c].seated ==> s.clients[c].session >= 1)
      && (forall c, d :: c in s.clients && d in s.clients && c != d && s.clients[c].seated && s.clients[d].seated
            ==> s.clients[c].session != s.clients[d].session)
  }

  ghost predicate VtOk(s: Seat) {
    s.pendingVt >= 0 && (!s.vtBound ==> s.pendingVt == 0)
  }

  // The state in which seat_activate may be entered: a client may be queued with nobody active.
  ghost predicate Ready(s: Seat) {
    Members(s) && ActiveOk(s) && QueueOk(s) && GroupsOk(s) && SessionsOk(s) && VtOk(s)
  }

  ghost predicate Inv(s: Seat) {
    Ready(s) && (s.next.Some? ==> s.active.Some?)
  }

  // ---------------------------------------------------------------- devices

  // The same devices, apart from the two flags.
  ghost predicate SameDevices(ds: seq<Device>, r: seq<Device>) {
    && |r| == |ds|
    && forall i :: 0 <= i < |ds| ==> r[i] == ds[i].(active := r[i].active, revokeFailed := r[i].revokeFailed)
  }

  lemma SameDevicesKeep(ds: seq<Device>, r: seq<Device>)
    requires DevicesOk(ds) && SameDevices(ds, r)
    ensures DevicesOk(r)
  {
    assert forall i :: 0 <= i < |ds| ==> r[i].id == ds[i].id && r[i].path == ds[i].path && r[i].refCnt == ds[i].refCnt;
  }

  lemma DeviceMapsKeep(ds: seq<Device>, fails: set<int>)
    requires DevicesOk(ds)
    ensures DevicesOk(ActivateAll(ds)) && DevicesOk(DeactivateAll(ds, fails)) && DevicesOk(DropDrm(ds, fails))
  {
    SameDevicesKeep(ds, ActivateAll(ds));
    SameDevicesKeep(ds, DeactivateAll(ds, fails));
    SameDevicesKeep(ds, DropDrm(ds, fails));
  }

  lemma CloseAtKeeps(ds: seq<Device>, i: nat)
    requires DevicesOk(ds) && i < |ds|
    ensures DevicesOk(CloseAt(ds, i))
  {
    var r := CloseAt(ds, i);
    if ds[i].refCnt <= 1 {
      assert forall k :: 0 <= k < |r| ==> r[k] == if k < i then ds[k] else ds[k + 1];
    }
  }

  // A member's record may change its state and table as long as its role on the seat stays.
  lemma SetClientKeeps(s: Seat, c: ClientId, cl: Client)
    requires Ready(s) && c in s.order
    requires cl.seated && cl.session == s.clients[c].session && ClientOk(cl)
    requires cl.state == s.clients[c].state || (cl.state == PendingDisable && Holding(s.clients[c].state))
    ensures Ready(SetClient(s, c, cl))
  {
  }

  lemma SetDevicesKeeps(s: Seat, c: ClientId, ds: seq<Device>)
    requires Ready(s) && c in s.order && DevicesOk(ds)
    ensures Ready(SetDevices(s, c, ds))
  {
    SetClientKeeps(s, c, s.clients[c].(devices := ds));
  }

  lemma IsLinked(s: Seat)
    requires Ready(s)
    ensures Linked(s) && (s.active.Some? ==> s.active.value in s.order)
  {
  }

  lemma MemberIs(s: Seat, c: ClientId)
    requires Ready(s) && c in s.order
    ensures c in s.clients && s.clients[c].seated && Linked(s) && ClientOk(s.clients[c])
    ensures Holding(s.clients[c].state) <==> s.active == Some(c)
    ensures s.next.None? ==> Inv(s)
  {
  }

  lemma SeatedIsMember(s: Seat, c: ClientId)
    requires Ready(s) && c in s.clients && s.clients[c].seated
    ensures c in s.order
  {
  }

  // The log has no part in the invariant.
  lemma LogIsFree(s: Seat, log: seq<Effect>)
    ensures Ready(s.(log := log)) == Ready(s) && Inv(s.(log := log)) == Inv(s)
  {
  }

  // ---------------------------------------------------------------- activation

  lemma EnabledKeeps(s: Seat, c: ClientId, ds: seq<Device>)
    requires Ready(s) && s.next.None? && s.active.None? && c in s.order && DevicesOk(ds)
    ensures Inv(SetClient(s, c, s.clients[c].(state := Active, devices := ds)).(active := Some(c)))
  {
  }

  lemma OpenOnKeeps(s: Seat, c: ClientId, vt: int, io: Io)
    requires Ready(s) && s.next.None? && s.active.None? && c in s.order && c in s.clients
    requires DevicesOk(s.clients[c].devices)
    ensures Inv(OpenOn(s, c, vt, io))
  {
    hide Ready, DevicesOk;
    var r, up := OpenOn(s, c, vt, io), ActivateAll(s.clients[c].devices);
    DeviceMapsKeep(s.clients[c].devices, io.revokeFails);
    if io.send.Delivered? {
      EnabledKeeps(s, c, up);
      LogIsFree(SetClient(s, c, s.clients[c].(state := Active, devices := up)).(active := Some(c)), r.log);
    } else {
      DeviceMapsKeep(up, io.revokeFails);
      SetDevicesKeeps(s, c, DeactivateAll(up, io.revokeFails));
      LogIsFree(SetDevices(s, c, DeactivateAll(up, io.revokeFails)), r.log);
    }
  }

  lemma OpenClientKeeps(s: Seat, c: ClientId, io: Io)
    requires Ready(s) && s.next.None? && c in s.order
    ensures Inv(OpenClient(s, c, io))
  {
    hide Inv, Ready, OpenOn, DevicesOk;
    MemberIs(s, c);
    if s.active.None? {
      OpenOnKeeps(s, c, s.clients[c].session, io);
      var told := Emit(s, VtOpened(VtForOpen(s, c)));
      LogIsFree(s, told.log);
      OpenOnKeeps(told, c, VtForOpen(s, c), io);
    }
  }

  lemma ActivateKeeps(s: Seat, io: Io)
    requires Ready(s)
    ensures Inv(Activate(s, io))
  {
    var chosen := Candidate(s);
    if s.active.None? && chosen.Some? {
      OpenClientKeeps(s.(next := None), chosen.value, io);
    }
  }

  // The same members with the same sessions on the same VTs; states and devices may differ.
  ghost predicate SameRoster(s: Seat, r: Seat) {
    && r.order == s.order && r.groups == s.groups && r.vtBound == s.vtBound
    && r.curVt == s.curVt && r.pendingVt == s.pendingVt && r.nextId == s.nextId
    && r.clients.Keys == s.clients.Keys
    && forall c :: c in s.clients ==>
         r.clients[c] == s.clients[c].(state := r.clients[c].state, devices := r.clients[c].devices)
  }

  lemma OpenClientFrame(s: Seat, c: ClientId, io: Io)
    requires c in s.clients
    ensures var r := OpenClient(s, c, io);
            && SameRoster(s, r)
            && r.next == s.next
            && (forall d :: d in s.clients && d != c ==> r.clients[d] == s.clients[d])
            && (r.active == s.active ==> r.clients[c].state == s.clients[c].state)
            && (r.active != s.active ==> r.active == Some(c) && r.clients[c].state == Active)
  {
    hide ActivateAll, DeactivateAll;
  }

  lemma ActivateFrame(s: Seat, io: Io)
    requires Ready(s)
    ensures var r := Activate(s, io);
            && SameRoster(s, r)
            && (forall d :: d in s.clients && Candidate(s) != Some(d) ==> r.clients[d] == s.clients[d])
            && (forall d :: d in s.clients && r.active != Some(d) ==> r.clients[d].state == s.clients[d].state)
  {
    var chosen := Candidate(s);
    if s.active.None? && chosen.Some? { OpenClientFrame(s.(next := None), chosen.value, io); }
  }

  lemma DisableClientKeeps(s: Seat, c: ClientId, io: Io)
    requires Ready(s) && c in s.order && (s.next.Some? ==> s.active.Some?)
    ensures Inv(DisableClient(s, c, io))
  {
    hide Ready, DevicesOk;
    MemberIs(s, c);
    var cl := s.clients[c];
    if cl.state == Active {
      DeviceMapsKeep(cl.devices, io.revokeFails);
      var down := cl.(state := PendingDisable, devices := DeactivateAll(cl.devices, io.revokeFails));
      SetClientKeeps(s, c, down);
      LogIsFree(SetClient(s, c, down), DisableClient(s, c, io).log);
    }
  }

  lemma AckDisableKeeps(s: Seat, c: ClientId, io: Io)
    requires Inv(s) && c in s.order
    ensures Inv(AckDisable(s, c, io).s) && c in AckDisable(s, c, io).s.clients
  {
    if s.clients[c].state == PendingDisable {
      var s1 := Emit(SetClient(s, c, s.clients[c].(state := Disabled)), DisableAcked(c)).(active := None);
      AckedIsReady(s, c);
      ActivateKeeps(s1, io);
      ActivateFrame(s1, io);
    }
  }

  lemma AckedIsReady(s: Seat, c: ClientId)
    requires Inv(s) && c in s.order && s.clients[c].state == PendingDisable
    ensures Ready(Emit(SetClient(s, c, s.clients[c].(state := Disabled)), DisableAcked(c)).(active := None))
  {
  }

  // ---------------------------------------------------------------- membership

  lemma JoinKeeps(s: Seat, c: ClientId, session: int)
    requires Inv(s) && c in s.clients && !s.clients[c].seated && s.clients[c].session == -1 && session != -1
    requires !s.vtBound ==> session >= 1 && session !in SessionSet(s)
    ensures Inv(Join(s, c, session))
  {
    var r := Join(s, c, session);
    assert forall x :: x in r.order <==> x == c || x in s.order;
    assert s.clients[c].state == New;
    JoinSessions(s, c, session);
  }

  lemma JoinSessions(s: Seat, c: ClientId, session: int)
    requires Inv(s) && c in s.clients && (!s.vtBound ==> session >= 1 && session !in SessionSet(s))
    ensures SessionsOk(Join(s, c, session))
  {
    SessionsListed(s);
  }

  lemma SessionsListed(s: Seat)
    requires Listed(s)
    ensures forall d :: d in s.order ==> s.clients[d].session in SessionSet(s)
  {
    forall d | d in s.order ensures s.clients[d].session in SessionSet(s) {
      var i :| 0 <= i < |s.order| && s.order[i] == d;
      assert s.clients[s.order[i]].session in SessionSet(s);
    }
  }

  lemma CurVtIsFree(s: Seat, vt: int)
    requires Inv(s)
    ensures Inv(s.(curVt := vt)) && SessionSet(s.(curVt := vt)) == SessionSet(s)
  {
  }

  lemma AddClientKeeps(s: Seat, c: ClientId, io: Io)
    requires Inv(s) && c in s.clients
    ensures Inv(AddClient(s, c, io).s)
    ensures AddClient(s, c, io).ok ==> AddClient(s, c, io).s.order == [c] + s.order
    ensures s.clients.Keys == AddClient(s, c, io).s.clients.Keys
  {
    hide SessionSet;
    var r := AddClient(s, c, io);
    var s1 := if s.vtBound then UpdateVt(s, io.vt) else s;
    CurVtIsFree(s, s1.curVt);
    hide Ready, MinFree, SessionSet;
    if r.ok { JoinKeeps(s1, c, if s.vtBound then s1.curVt else MinFree(SessionSet(s), 1)); }
  }

  lemma WithoutDistinct(order: seq<ClientId>, c: ClientId)
    requires Distinct(order)
    ensures Distinct(Without(order, c))
  {
    if order != [] {
      assert Distinct(order[1..]) by {
        assert forall i :: 0 <= i < |order| - 1 ==> order[1..][i] == order[i + 1];
      }
      WithoutDistinct(order[1..], c);
      assert order[0] !in order[1..];
    }
  }

  lemma GroupsNotOfDistinct(groups: seq<GroupVt>, c: ClientId)
    requires forall i, j :: 0 <= i < j < |groups| ==> groups[i].vt != groups[j].vt
    ensures var r := GroupsNotOf(groups, c); forall i, j :: 0 <= i < j < |r| ==> r[i].vt != r[j].vt
  {
    if groups != [] {
      var tail := groups[1..];
      assert forall i :: 0 <= i < |tail| ==> tail[i] == groups[i + 1];
      GroupsNotOfDistinct(tail, c);
      assert forall g :: g in tail ==> g.vt != groups[0].vt;
      var r := GroupsNotOf(tail, c);
      assert forall i :: 0 <= i < |r| ==> r[i] in r && r[i] in tail;
    }
  }

  lemma DetachGroups(s: Seat, c: ClientId)
    requires Inv(s) && c in s.order
    ensures GroupsOk(Detach(s, c))
  {
    GroupsNotOfDistinct(s.groups, c);
    var r := Detach(s, c);
    assert r.groups == GroupsNotOf(s.groups, c);
    assert r.groups != [] ==> r.groups[0] in r.groups;
  }

  lemma DetachMembers(s: Seat, c: ClientId)
    requires Inv(s) && c in s.order
    ensures Members(Detach(s, c)) && ActiveOk(Detach(s, c)) && QueueOk(Detach(s, c))
  {
    WithoutDistinct(s.order, c);
    var r := Detach(s, c);
    var gone := s.clients[c].(seated := false, state := Closed, devices := []);
    assert r.order == Without(s.order, c) && r.clients == s.clients[c := gone];
    assert ClientOk(gone);
  }

  lemma DetachKeeps(s: Seat, c: ClientId)
    requires Inv(s) && c in s.order
    ensures Ready(Detach(s, c))
    ensures s.active != Some(c) ==> Inv(Detach(s, c))
  {
    DetachGroups(s, c);
    DetachMembers(s, c);
  }

  lemma EmitKeeps(s: Seat, e: Effect)
    ensures Inv(Emit(s, e)) == Inv(s)
  {
  }

  lemma DetachKeys(s: Seat, c: ClientId)
    requires c in s.clients
    ensures Detach(s, c).clients.Keys == s.clients.Keys
  {
  }

  lemma VacateKeeps(s: Seat, c: ClientId, io: Io)
    requires Inv(s) && c in s.order
    ensures Inv(Vacate(s, c, io))
  {
    DetachKeeps(s, c);
    ActivateKeeps(Detach(s, c), io);
  }

  lemma VacateFrame(s: Seat, c: ClientId, io: Io)
    requires Inv(s) && c in s.order
    ensures Vacate(s, c, io).clients.Keys == s.clients.Keys
    ensures Vacate(s, c, io).order == Without(s.order, c)
  {
    DetachKeeps(s, c);
    DetachKeys(s, c);
    ActivateFrame(Detach(s, c), io);
  }

  lemma RemoveClientKeeps(s: Seat, c: ClientId, io: Io)
    requires Inv(s) && c in s.order
    ensures var r := RemoveClient(s, c, io);
            Inv(r) && r.clients.Keys == s.clients.Keys && r.order == Without(s.order, c)
    ensures c in RemoveClient(s, c, io).clients && c !in RemoveClient(s, c, io).order
  {
    VacateKeeps(s, c, io);
    VacateFrame(s, c, io);
    EmitKeeps(Vacate(s, c, io), VtClosed(s.clients[c].session));
  }

  // ---------------------------------------------------------------- device requests

  lemma OpenDeviceKeeps(s: Seat, c: ClientId, io: Io)
    requires Inv(s) && c in s.order
    ensures Inv(OpenDevice(s, c, io).s)
  {
    hide Ready, DevicesOk;
    MemberIs(s, c);
    OpenedTable(s, c, io);
    var r := OpenDevice(s, c, io).s;
    if r != s {
      SetDevicesKeeps(s, c, r.clients[c].devices);
      LogIsFree(SetDevices(s, c, r.clients[c].devices), r.log);
    }
  }

  lemma OpenedTable(s: Seat, c: ClientId, io: Io)
    requires c in s.clients && DevicesOk(s.clients[c].devices)
    ensures var r := OpenDevice(s, c, io).s;
            && c in r.clients && DevicesOk(r.clients[c].devices)
            && r == SetDevices(s, c, r.clients[c].devices).(log := r.log)
  {
    hide DevicesOk;
    var ds := s.clients[c].devices;
    if s.clients[c].state == Active && io.resolved.Some? {
      var i := IndexOfPath(ds, io.resolved.value.path);
      if i < |ds| { CountedTable(ds, i); } else if |ds| < MAX_SEAT_DEVICES { LongerTable(ds, io.resolved.value); }
    }
    assert s.clients[c := s.clients[c].(devices := ds)] == s.clients;
  }

  lemma CountedTable(ds: seq<Device>, i: nat)
    requires DevicesOk(ds) && i < |ds|
    ensures DevicesOk(ds[i := ds[i].(refCnt := ds[i].refCnt + 1)])
  {
  }

  lemma LongerTable(ds: seq<Device>, node: Node)
    requires DevicesOk(ds) && |ds| < MAX_SEAT_DEVICES && IndexOfPath(ds, node.path) == |ds|
    ensures DevicesOk([Device(FreshDeviceId(ds), node.path, node.kind, 1, true, false)] + ds)
  {
    hide FreshDeviceId, IndexOfPath;
  }

  lemma CloseDeviceKeeps(s: Seat, c: ClientId, i: nat)
    requires Inv(s) && c in s.order && i < |s.clients[c].devices|
    ensures Inv(CloseDevice(s, c, i))
  {
    CloseAtKeeps(s.clients[c].devices, i);
    SetDevicesKeeps(s, c, CloseAt(s.clients[c].devices, i));
  }

  // ---------------------------------------------------------------- switching and grouped VTs

  lemma NothingPending(s: Seat)
    requires Ready(s)
    ensures s.pendingVt >= 0 && (!s.vtBound ==> s.pendingVt == 0)
  {
  }

  // A VT switch was requested, or refused.
  lemma PendingKeeps(s: Seat, vt: int, log: seq<Effect>)
    requires Inv(s) && vt >= 0 && (!s.vtBound ==> vt == 0)
    ensures Inv(s.(pendingVt := vt, log := log))
  {
  }

  // The active client is disabled with another one queued.
  lemma DisableQueues(s: Seat, c: ClientId, d: ClientId, io: Io)
    requires Inv(s) && !s.vtBound && c in s.order && s.clients[c].state == Active && d in s.order && d != c
    ensures Inv(DisableClient(s.(next := Some(d)), c, io))
  {
    assert s.active == Some(c) && s.next.None?;
    DisableClientKeeps(s, c, io);
    QueuedKeeps(DisableClient(s, c, io), c, d);
  }

  lemma QueuedKeeps(s: Seat, c: ClientId, d: ClientId)
    requires Inv(s) && !s.vtBound && s.active == Some(c) && s.clients[c].state == PendingDisable && d in s.order
    requires d != c
    ensures Inv(s.(next := Some(d)))
  {
  }

  lemma SetNextSessionKeeps(s: Seat, c: ClientId, session: int, io: Io)
    requires Inv(s) && c in s.order
    ensures Inv(SetNextSession(s, c, session, io).s) && c in SetNextSession(s, c, session, io).s.clients
  {
    hide Ready, IndexOfSession;
    MemberIs(s, c);
    NothingPending(s);
    var r := SetNextSession(s, c, session, io).s;
    if r.next == s.next {
      PendingKeeps(s, r.pendingVt, r.log);
    } else {
      var d := s.order[IndexOfSession(s, session, 0)];
      DisableQueues(s, c, d, io);
    }
  }

  lemma CreateGroupVtKeeps(s: Seat, owner: ClientId, requested: int, io: Io)
    requires Inv(s) && owner in s.order
    ensures Inv(CreateGroupVt(s, owner, requested, io).s)
  {
    var r := CreateGroupVt(s, owner, requested, io);
    if r.ok {
      assert forall g :: g in r.s.groups ==> g == r.s.groups[0] || g in s.groups;
    }
  }

  lemma DestroyGroupVtKeeps(s: Seat, vt: int)
    requires Inv(s)
    ensures Inv(DestroyGroupVt(s, vt).s)
  {
    var i := IndexOfGroup(s.groups, vt);
    if i < |s.groups| {
      var r := RemoveAt(s.groups, i);
      assert forall k :: 0 <= k < |r| ==> r[k] == s.groups[if k < i then k else k + 1];
      assert forall g :: g in r ==> g in s.groups;
    }
  }

  // ---------------------------------------------------------------- VT signals and events

  lemma VtAcquireKeeps(s: Seat, io: Io)
    requires Inv(s)
    ensures Inv(VtAcquire(s, io))
  {
  }

  lemma SwitchVtKeeps(s: Seat, vt: int, io: Io)
    requires Inv(s)
    ensures Inv(SwitchVt(s, vt, io).s)
  {
  }

  lemma VtReleaseKeeps(s: Seat, io: Io)
    requires Inv(s)
    ensures Inv(VtRelease(s, io))
  {
    var s1 := UpdateVt(s, io.vt);
    if s.active.Some? {
      DeviceMapsKeep(s1.clients[s.active.value].devices, io.revokeFails);
      SetDevicesKeeps(s1, s.active.value, DropDrm(s1.clients[s.active.value].devices, io.revokeFails));
    }
  }

  lemma FollowVtKeeps(s: Seat, io: Io)
    requires Inv(s)
    ensures Inv(FollowVt(s, io))
  {
    if s.active.None? {
      ActivateKeeps(s, io);
    } else {
      var c := s.active.value;
      DeviceMapsKeep(s.clients[c].devices, io.revokeFails);
      SetDevicesKeeps(s, c, ActivateAll(s.clients[c].devices));
      DisableClientKeeps(s, c, io);
    }
  }

  lemma VtEventKeeps(s: Seat, oldVt: int, newVt: int, io: Io)
    requires Inv(s)
    ensures Inv(VtEvent(s, oldVt, newVt, io))
  {
    hide Ready;
    IsLinked(s);
    MovedIsReady(s, oldVt, newVt);
    FollowVtKeeps(Moved(s, oldVt, newVt), io);
  }

  lemma MovedIsReady(s: Seat, oldVt: int, newVt: int)
    requires Inv(s)
    ensures Inv(Moved(s, oldVt, newVt))
  {
  }

  // ---------------------------------------------------------------- requests and steps

  // Opening a freshly added client: it is new, so whether a switch is queued does not matter.
  lemma OpenedFromAddIsQuiet(s: Seat, c: ClientId, io: Io)
    requires Inv(s) && c in s.clients && AddClient(s, c, io).ok
    ensures var r := OpenClient(Emit(AddClient(s, c, io).s, Replied(c, SeatOpened)), c, io); Inv(r) && c in r.clients
  {
    hide Ready, AddClient;
    IsLinked(s);
    AddClientKeeps(s, c, io);
    var t := Emit(AddClient(s, c, io).s, Replied(c, SeatOpened));
    EmitKeeps(AddClient(s, c, io).s, Replied(c, SeatOpened));
    OpenClientFrame(t, c, io);
    if t.active.None? { OpenClientKeeps(t, c, io); }
  }

  lemma HandleOpenSeatKeeps(s: Seat, c: ClientId, io: Io)
    requires Inv(s) && c in s.clients
    ensures Inv(HandleOpenSeat(s, c, io).s) && c in HandleOpenSeat(s, c, io).s.clients
  {
    hide Ready, AddClient, OpenClient;
    IsLinked(s);
    AddClientKeeps(s, c, io);
    if AddClient(s, c, io).ok {
      OpenedFromAddIsQuiet(s, c, io);
      EmitKeeps(AddClient(s, c, io).s, Replied(c, SeatOpened));
    }
  }

  lemma HandleOpenDeviceKeeps(s: Seat, c: ClientId, io: Io)
    requires Inv(s) && c in s.order
    ensures Inv(HandleOpenDevice(s, c, io).s) && c in HandleOpenDevice(s, c, io).s.clients
  {
    hide Ready, OpenDevice;
    MemberIs(s, c);
    OpenDeviceKeeps(s, c, io);
    OpenedTable(s, c, io);
    var got := OpenDevice(s, c, io);
    AnswerKeeps(s, c, Error, io, Answer(s, c, Error, io).s);
    if got.at.Some? {
      CloseDeviceKeeps(got.s, c, got.at.value);
      var closed, id := CloseDevice(got.s, c, got.at.value), got.s.clients[c].devices[got.at.value].id;
      AnswerKeeps(closed, c, Error, io, Answer(closed, c, Error, io).s);
      AnswerKeeps(got.s, c, DeviceOpened(id), io, Answer(got.s, c, DeviceOpened(id), io).s);
    }
  }

  lemma AnswerKeeps(s: Seat, c: ClientId, reply: Reply, io: Io, r: Seat)
    requires Inv(s) && c in s.clients && r == Answer(s, c, reply, io).s
    ensures Inv(r) && c in r.clients
  {
    EmitKeeps(s, Replied(c, reply));
  }

  lemma HandleCloseSeatKeeps(s: Seat, c: ClientId, io: Io)
    requires Inv(s) && c in s.order
    ensures var r := Handle(s, c, CloseSeatReq, io); Inv(r.s) && c in r.s.clients
  {
    hide Ready, RemoveClient;
    MemberIs(s, c);
    RemoveClientKeeps(s, c, io);
    AnswerKeeps(RemoveClient(s, c, io), c, SeatClosed, io, Handle(s, c, CloseSeatReq, io).s);
  }

  lemma HandleCloseDeviceKeeps(s: Seat, c: ClientId, id: int, io: Io)
    requires Inv(s) && c in s.order
    ensures var r := HandleCloseDevice(s, c, id, io); Inv(r.s) && c in r.s.clients
  {
    var i := IndexOfId(s.clients[c].devices, id);
    AnswerKeeps(s, c, Error, io, Answer(s, c, Error, io).s);
    if i < |s.clients[c].devices| {
      CloseDeviceKeeps(s, c, i);
      AnswerKeeps(CloseDevice(s, c, i), c, DeviceClosed, io, Answer(CloseDevice(s, c, i), c, DeviceClosed, io).s);
    }
  }

  lemma HandleDisableKeeps(s: Seat, c: ClientId, io: Io)
    requires Inv(s) && c in s.order
    ensures var r := Handle(s, c, DisableSeatReq, io); Inv(r.s) && c in r.s.clients
  {
    hide Ready, AckDisable;
    MemberIs(s, c);
    AckDisableKeeps(s, c, io);
    var acked := AckDisable(s, c, io);
    AnswerKeeps(acked.s, c, if acked.ok then SeatDisabled else Error, io, Handle(s, c, DisableSeatReq, io).s);
  }

  lemma HandleSwitchKeeps(s: Seat, c: ClientId, session: int, io: Io)
    requires Inv(s) && c in s.order
    ensures var r := Handle(s, c, SwitchSessionReq(session), io); Inv(r.s) && c in r.s.clients
  {
    hide Ready, SetNextSession;
    MemberIs(s, c);
    SetNextSessionKeeps(s, c, session, io);
    var queued := SetNextSession(s, c, session, io);
    var reply := if queued.ok then SessionSwitched else Error;
    AnswerKeeps(queued.s, c, reply, io, Handle(s, c, SwitchSessionReq(session), io).s);
  }

  lemma HandleKeeps(s: Seat, c: ClientId, req: Request, io: Io)
    requires Inv(s) && c in s.clients
    ensures var r := Handle(s, c, req, io); Inv(r.s) && c in r.s.clients
  {
    if req == OpenSeatReq {
      HandleOpenSeatKeeps(s, c, io);
    } else if req == PingReq {
      AnswerKeeps(s, c, Pong, io, Handle(s, c, req, io).s);
    } else if s.clients[c].seated {
      match req
      case PingReq =>
      case OpenSeatReq =>
      case CloseSeatReq => HandleCloseSeatKeeps(s, c, io);
      case OpenDeviceReq => HandleOpenDeviceKeeps(s, c, io);
      case CloseDeviceReq(id) => HandleCloseDeviceKeeps(s, c, id, io);
      case DisableSeatReq => HandleDisableKeeps(s, c, io);
      case SwitchSessionReq(session) => HandleSwitchKeeps(s, c, session, io);
    }
  }

  lemma ForgetKeeps(s: Seat, c: ClientId)
    requires Inv(s) && c !in s.order
    ensures Inv(s.(clients := s.clients - {c}))
  {
  }

  lemma DestroyKeeps(s: Seat, c: ClientId, io: Io)
    requires Inv(s) && c in s.clients
    ensures Inv(Destroy(s, c, io))
  {
    var s1 := if s.clients[c].seated then RemoveClient(s, c, io) else s;
    if s.clients[c].seated { RemoveClientKeeps(s, c, io); }
    ForgetKeeps(s1, c);
    EmitKeeps(s1.(clients := s1.clients - {c}), Gone(c));
  }

  // A request read from a client: a failed handler or flush tears the client down.
  function ServeClient(s: Seat, c: ClientId, req: Request, io: Io, io2: Io): (r: Seat)
    requires Inv(s)
    ensures Inv(r)
  {
    if c !in s.clients then s
    else
      HandleKeeps(s, c, req, io);
      var h := Handle(s, c, req, io);
      if h.ok && io.flush then h.s else DestroyKeeps(h.s, c, io2); Destroy(h.s, c, io2)
  }

  function Drop(s: Seat, c: ClientId, io: Io): (r: Seat)
    requires Inv(s)
    ensures Inv(r)
  {
    if c !in s.clients then s else DestroyKeeps(s, c, io); Destroy(s, c, io)
  }

  // A request of the control socket; grouped VTs are requested for a process, not for a client.
  function ControlGroup(s: Seat, pid: int, vt: int, io: Io): (r: Seat)
    requires Inv(s)
    ensures Inv(r)
  {
    var i := IndexOfPid(s, pid, 0);
    if i == |s.order| then s
    else CreateGroupVtKeeps(s, s.order[i], vt, io); CreateGroupVt(s, s.order[i], vt, io).s
  }

  function Accept(s: Seat, pid: int): (r: Seat)
    requires Inv(s)
    ensures Inv(r)
  {
    s.(clients := s.clients[s.nextId := Client(pid, false, -1, New, [])], nextId := s.nextId + 1)
  }

  // One turn of the event loop. `io2` answers the calls made while a failed client is torn down.
  function Next(s: Seat, step: Step, io: Io, io2: Io): (r: Seat)
    requires Inv(s)
    ensures Inv(r)
  {
    match step
    case Connect(pid) => Accept(s, pid)
    case Serve(c, req) => ServeClient(s, c, req, io, io2)
    case Disconnect(c) => Drop(s, c, io2)
    case ControlCreate(pid, vt) => ControlGroup(s, pid, vt, io)
    case ControlDestroy(vt) => DestroyGroupVtKeeps(s, vt); DestroyGroupVt(s, vt).s
    case ControlActiveVt => VtAcquireKeeps(s, io); VtAcquire(s, io)
    case ControlSwitch(vt) => SwitchVtKeeps(s, vt, io); SwitchVt(s, vt, io).s
    case SignalRelease => VtReleaseKeeps(s, io); VtRelease(s, io)
    case SignalAcquire => VtAcquireKeeps(s, io); VtAcquire(s, io)
    case Event(oldVt, newVt) => VtEventKeeps(s, oldVt, newVt, io); VtEvent(s, oldVt, newVt, io)
  }
}
