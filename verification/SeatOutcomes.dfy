// What each request, signal and event comes to: in terms of the seat before it and of what the kernel
// and the sockets answered, and without the functions that compute it.
module SeatOutcomes {
  import opened Options
  import opened SeatSpec
  import opened SeatInvariant
  import opened SeatMoves
  import opened SeatRuns
  import D = SeatDevices
  import U = SeatUnbound

  // ---------------------------------------------------------------- who holds a VT

  // A VT is a client's if it is its session or grouped under it.
  predicate Holds(s: Seat, c: ClientId, vt: int) {
    c in s.clients && (s.clients[c].session == vt || GroupVt(vt, c) in s.groups)
  }

  lemma OwnsIsHolds(s: Seat, c: ClientId, vt: int)
    requires Ready(s) && c in s.order
    ensures c in s.clients && (OwnsVt(s, c, vt) <==> Holds(s, c, vt))
  {
    hide ClientOk;
    MemberIs(s, c);
    if GroupVt(vt, c) in s.groups { OneOwner(s.groups, vt, c); }
  }

  lemma {:induction false} OneOwner(groups: seq<GroupVt>, vt: int, c: ClientId)
    requires forall i, j :: 0 <= i < j < |groups| ==> groups[i].vt != groups[j].vt
    requires GroupVt(vt, c) in groups
    ensures GroupOwner(groups, vt) == Some(c)
  {
    if groups[0].vt == vt {
      var i :| 0 <= i < |groups| && groups[i] == GroupVt(vt, c);
    } else {
      OneOwner(groups[1..], vt, c);
    }
  }

  // ---------------------------------------------------------------- devices

  // A device that is taken away: what cannot be revoked stays as it is.
  predicate Revoked(d: Device, r: Device, fails: set<int>) {
    if d.active && (d.kind == Wscons || d.id !in fails) then r == d.(active := false)
    else r == d.(revokeFailed := d.revokeFailed || d.active)
  }

  // ... and given back: only DRM devices can be.
  predicate Resumed(d: Device, r: Device) {
    r == d.(active := d.active || d.kind == Drm)
  }

  predicate AllRevoked(ds: seq<Device>, r: seq<Device>, fails: set<int>) {
    |r| == |ds| && forall i :: 0 <= i < |ds| ==> Revoked(ds[i], r[i], fails)
  }

  predicate AllResumed(ds: seq<Device>, r: seq<Device>) {
    |r| == |ds| && forall i :: 0 <= i < |ds| ==> Resumed(ds[i], r[i])
  }

  // Given back and taken away again.
  ghost predicate Returned(ds: seq<Device>, r: seq<Device>, fails: set<int>) {
    exists up: seq<Device> :: AllResumed(ds, up) && AllRevoked(up, r, fails)
  }

  // From `s` to `r` only the record of `c` and the log changed.
  predicate OnlyClient(s: Seat, r: Seat, c: ClientId) {
    && c in s.clients && c in r.clients
    && r == s.(clients := s.clients[c := r.clients[c]], log := r.log)
  }

  // ---------------------------------------------------------------- giving a free seat away

  // Whom a free seat goes to: the queued client; else, on a VT-bound seat, the first member of the
  // list that holds the current VT; else the first member.
  ghost predicate Chosen(s: Seat, a: ClientId) {
    if s.next.Some? then s.next == Some(a)
    else
      && (s.vtBound ==> s.curVt != -1)
      && exists i :: 0 <= i < |s.order| && s.order[i] == a && FirstToHold(s, i)
  }

  ghost predicate FirstToHold(s: Seat, i: nat)
    requires i < |s.order|
  {
    if s.vtBound then Holds(s, s.order[i], s.curVt) && forall j :: 0 <= j < i ==> !Holds(s, s.order[j], s.curVt)
    else i == 0
  }

  function VtOf(s: Seat, a: ClientId): int
    requires a in s.clients
  {
    if s.curVt > 0 && Holds(s, a, s.curVt) then s.curVt else s.clients[a].session
  }

  function On(vtBound: bool, e: Effect): seq<Effect> {
    if vtBound then [e] else []
  }

  // `a` is given the seat, and has it if it could be told so.
  ghost predicate Enabled(s: Seat, r: Seat, a: ClientId, io: Io) {
    && OnlyClient(s.(active := if io.send.Delivered? then Some(a) else None), r, a)
    && var cl, vt := s.clients[a], VtOf(s, a);
       if io.send.Delivered? then
         && r.clients[a] == cl.(state := Active, devices := r.clients[a].devices)
         && AllResumed(cl.devices, r.clients[a].devices)
         && r.log == s.log + On(s.vtBound, VtOpened(vt)) + [EnableSent(a)]
       else
         && r.clients[a] == cl.(devices := r.clients[a].devices)
         && Returned(cl.devices, r.clients[a].devices, io.revokeFails)
         && r.log == s.log + On(s.vtBound, VtOpened(vt)) + (if io.send.Left? then [EnableLeft(a)] else [])
                     + On(s.vtBound, VtClosed(vt))
  }

  // Nothing of it happens if the VT cannot be opened.
  ghost predicate Offered(s: Seat, r: Seat, a: ClientId, io: Io) {
    if s.vtBound && !io.vtOpen then r == s else Enabled(s, r, a, io)
  }

  ghost predicate Given(s: Seat, r: Seat, io: Io) {
    || (r == s && forall a: ClientId :: !Chosen(s, a))
    || exists a: ClientId :: Chosen(s, a) && Offered(s.(next := None), r, a, io)
  }

  lemma OffersSeat(s: Seat, a: ClientId, io: Io)
    requires Ready(s) && s.active.None? && s.next.None? && a in s.order
    ensures a in s.clients && Offered(s, OpenClient(s, a, io), a, io)
  {
    hide Ready, OwnsVt;
    MemberIs(s, a);
    OwnsIsHolds(s, a, s.curVt);
    var cl, r := s.clients[a], OpenClient(s, a, io);
    var up := ActivateAll(cl.devices);
    assert AllResumed(cl.devices, up);
    assert AllRevoked(up, DeactivateAll(up, io.revokeFails), io.revokeFails);
  }

  // seat_activate
  lemma GivesSeat(s: Seat, io: Io)
    requires Ready(s) && s.active.None?
    ensures Linked(s) && Given(s, Activate(s, io), io)
  {
    hide Ready, OpenClient, Offered, Given;
    IsLinked(s);
    GoesTo(s);
    var a := Candidate(s);
    if a.Some? {
      FreshQueue(s);
      OffersSeat(s.(next := None), a.value, io);
    }
    GivenIs(s, a, Activate(s, io), io);
  }

  lemma GivenIs(s: Seat, a: Option<ClientId>, r: Seat, io: Io)
    requires forall x: ClientId :: Chosen(s, x) <==> a == Some(x)
    requires if a.None? then r == s else Offered(s.(next := None), r, a.value, io)
    ensures Given(s, r, io)
  {
    hide Chosen, Offered;
    if a.Some? { assert Chosen(s, a.value); }
  }

  lemma FreshQueue(s: Seat)
    requires Ready(s)
    ensures Ready(s.(next := None))
  {
    OnlyNext(s, None);
  }

  // The choice is what it should be.
  lemma GoesTo(s: Seat)
    requires Ready(s) && Linked(s)
    ensures forall a: ClientId :: Chosen(s, a) <==> Candidate(s) == Some(a)
    ensures Candidate(s).Some? ==> Candidate(s).value in s.order
  {
    hide Ready, Holds, OwnsVt;
    if s.next.Some? {
      QueuedIsMember(s);
    } else if s.vtBound && s.curVt != -1 {
      FirstIsFirst(s, 0);
      forall a: ClientId ensures Chosen(s, a) <==> FirstOwner(s, s.curVt, 0) == Some(a) {
        if Chosen(s, a) {
          var i :| 0 <= i < |s.order| && s.order[i] == a && FirstToHold(s, i);
        }
      }
    }
  }

  lemma QueuedIsMember(s: Seat)
    requires Ready(s) && s.next.Some?
    ensures s.next.value in s.order
  {
  }

  lemma {:induction false} FirstIsFirst(s: Seat, from: nat)
    requires Ready(s) && Linked(s) && s.vtBound && from <= |s.order|
    requires forall j :: 0 <= j < from ==> !Holds(s, s.order[j], s.curVt)
    ensures var r := FirstOwner(s, s.curVt, from);
            if r.Some? then exists i :: 0 <= i < |s.order| && s.order[i] == r.value && FirstToHold(s, i)
            else forall j :: 0 <= j < |s.order| ==> !Holds(s, s.order[j], s.curVt)
    decreases |s.order| - from
  {
    hide Ready, Holds, OwnsVt;
    if from < |s.order| {
      OwnsIsHolds(s, s.order[from], s.curVt);
      if OwnsVt(s, s.order[from], s.curVt) {
        assert FirstToHold(s, from);
      } else {
        FirstIsFirst(s, from + 1);
      }
    }
  }

  // ---------------------------------------------------------------- requests

  // The reply is queued, if it can be.
  predicate Says(s: Seat, h: Done, c: ClientId, reply: Reply, io: Io) {
    h == Done(s.(log := s.log + if io.put then [Replied(c, reply)] else []), io.put)
  }

  // A request whose handler fails, or whose reply cannot be flushed, ends with the client.
  lemma ServeOutcome(s: Seat, t: Turn)
    requires Inv(s) && t.step.Serve?
    ensures Linked(s) && (t.step.c !in s.clients ==> Take(s, t) == s)
    ensures t.step.c in s.clients ==>
              var h := Handle(s, t.step.c, t.step.req, t.io);
              && Inv(h.s)
              && Take(s, t) == if h.ok && t.io.flush then h.s else Take(h.s, t.(step := Disconnect(t.step.c)))
  {
    hide Handle, Destroy, Ready;
    IsLinked(s);
    if t.step.c in s.clients { HandleKeeps(s, t.step.c, t.step.req, t.io); }
  }

  // disable_seat: it ends the turn of a client that was told to disable, and is an error otherwise.
  lemma AckOutcome(s: Seat, c: ClientId, io: Io) returns (u: Seat)
    requires Inv(s) && c in s.order
    ensures Linked(s) && c in s.clients
    ensures var h := Handle(s, c, DisableSeatReq, io);
            if s.clients[c].state != PendingDisable then Says(s, h, c, Error, io)
            else
              && Given(s.(active := None, clients := s.clients[c := s.clients[c].(state := Disabled)],
                          log := s.log + [DisableAcked(c)]), u, io)
              && Says(u, h, c, SeatDisabled, io)
  {
    hide Ready, Given, Activate;
    MemberIs(s, c);
    u := s;
    if s.clients[c].state == PendingDisable {
      AckedIsReady(s, c);
      var v := Emit(SetClient(s, c, s.clients[c].(state := Disabled)), DisableAcked(c)).(active := None);
      GivesSeat(v, io);
      u := Activate(v, io);
    }
  }

  // A client is told to let go of the seat, and loses its devices whether it could be told or not.
  predicate Suspended(s: Seat, r: Seat, c: ClientId, io: Io) {
    && OnlyClient(s, r, c)
    && r.clients[c] == s.clients[c].(state := PendingDisable, devices := r.clients[c].devices)
    && AllRevoked(s.clients[c].devices, r.clients[c].devices, io.revokeFails)
    && r.log == s.log +
         match io.send case Delivered => [DisableSent(c)] case Left => [DisableLeft(c)] case Dropped => []
  }

  lemma DisableSuspends(s: Seat, c: ClientId, io: Io)
    requires c in s.clients && s.clients[c].state == Active
    ensures Suspended(s, DisableClient(s, c, io), c, io)
  {
  }

  // switch_session on a VT-bound seat: the VT asked for is the one named, it is asked for exactly if
  // it is not current and no other switch is pending, and nothing else changes.
  lemma SwitchOnVts(s: Seat, c: ClientId, n: int, io: Io)
    requires Inv(s) && c in s.order && s.vtBound
    ensures Linked(s) && c in s.clients
    ensures var h := Handle(s, c, SwitchSessionReq(n), io);
            var may := s.clients[c].state == Active && n > 0;
            var asks := may && s.curVt != n && s.pendingVt == 0 && io.vtSwitch;
            if asks then Says(s.(pendingVt := n, log := s.log + [VtActivated(n)]), h, c, SessionSwitched, io)
            else Says(s, h, c, if may && s.curVt == n then SessionSwitched else Error, io)
  {
    hide Members, ActiveOk, GroupsOk, SessionsOk;
    MemberIs(s, c);
  }

  // On one without VTs the member with that session is queued, and the client told to let go.
  lemma SwitchWithoutVts(s: Seat, c: ClientId, n: int, io: Io) returns (u: Seat)
    requires Inv(s) && c in s.order && !s.vtBound
    ensures Linked(s) && c in s.clients
    ensures var h, own := Handle(s, c, SwitchSessionReq(n), io), s.clients[c].session;
            if s.clients[c].state != Active then Says(s, h, c, Error, io)
            else if n == own then Says(s, h, c, SessionSwitched, io)
            else if forall d :: d in s.order ==> s.clients[d].session != n then Says(s, h, c, Error, io)
            else
              && u.next.Some? && u.next.value in s.order && s.clients[u.next.value].session == n
              && Suspended(s.(next := u.next), u, c, io) && Says(u, h, c, SessionSwitched, io)
  {
    hide Members, ActiveOk, GroupsOk, Suspended;
    MemberIs(s, c);
    u := s;
    if s.clients[c].state == Active && n > 0 && n != s.clients[c].session {
      var i := IndexOfSession(s, n, 0);
      if i < |s.order| {
        assert s.order[i] in s.order;
        u := DisableClient(s.(next := Some(s.order[i])), c, io);
        DisableSuspends(s.(next := Some(s.order[i])), c, io);
      }
    } else if n <= 0 {
      forall d | d in s.order ensures s.clients[d].session != n { MemberHasSession(s, d); }
    }
  }

  lemma MemberHasSession(s: Seat, d: ClientId)
    requires Inv(s) && d in s.order && !s.vtBound
    ensures d in s.clients && s.clients[d].session >= 1
  {
    MemberIs(s, d);
  }

  // ---------------------------------------------------------------- devices

  predicate HasPath(ds: seq<Device>, path: string) {
    exists i :: 0 <= i < |ds| && ds[i].path == path
  }

  // One more reference to a path: its entry counts it, or a new entry with a new number does.
  predicate OneMore(ds: seq<Device>, r: seq<Device>, node: Node, id: int) {
    if HasPath(ds, node.path) then
      exists i :: 0 <= i < |ds| && ds[i].path == node.path && ds[i].id == id
                  && r == ds[i := ds[i].(refCnt := ds[i].refCnt + 1)]
    else
      && r == [Device(id, node.path, node.kind, 1, true, false)] + ds
      && id >= 1 && (forall i :: 0 <= i < |ds| ==> ds[i].id < id)
      && (id > 1 ==> exists i :: 0 <= i < |ds| && ds[i].id == id - 1)
  }

  // One reference less to the i-th entry: the last one takes the entry along.
  predicate OneLess(ds: seq<Device>, r: seq<Device>, i: nat)
    requires i < |ds|
  {
    if ds[i].refCnt > 1 then r == ds[i := ds[i].(refCnt := ds[i].refCnt - 1)] else r == ds[..i] + ds[i + 1..]
  }

  predicate MayOpen(s: Seat, c: ClientId, io: Io) {
    && c in s.clients && s.clients[c].state == Active && io.resolved.Some?
    && (HasPath(s.clients[c].devices, io.resolved.value.path) || (|s.clients[c].devices| < 128 && io.open))
  }

  // The table and the log after an open or a close.
  function WithTable(s: Seat, c: ClientId, ds: seq<Device>, es: seq<Effect>): Seat
    requires c in s.clients
  {
    s.(clients := s.clients[c := s.clients[c].(devices := ds)], log := s.log + es)
  }

  // open_device: a client that has the seat gets one more reference, and its number; a descriptor that
  // cannot be duplicated leaves the table as it was.
  lemma OpenOutcome(s: Seat, c: ClientId, io: Io) returns (ds: seq<Device>, id: int)
    requires Inv(s) && c in s.order
    ensures Linked(s) && c in s.clients
    ensures var h := Handle(s, c, OpenDeviceReq, io);
            if !MayOpen(s, c, io) then Says(s, h, c, Error, io)
            else
              var node := io.resolved.value;
              if !io.dup then
                Says(s.(log := s.log + [OpenedDevice(c, node.path)] + [ClosedDevice(c, node.path)]), h, c, Error, io)
              else
                && OneMore(s.clients[c].devices, ds, node, id)
                && var u := WithTable(s, c, ds, [OpenedDevice(c, node.path)]);
                   if io.putFd then Says(u, h, c, DeviceOpened(id), io) else h == Done(u, false)
  {
    hide Ready, OpenDevice, CloseDevice, MayOpen, OneMore;
    MemberIs(s, c);
    var got := OpenDevice(s, c, io);
    ds, id := [], 0;
    if got.at.Some? {
      ds, id := got.s.clients[c].devices, got.s.clients[c].devices[got.at.value].id;
      OpensOne(s, c, io);
      if !io.dup { DropsAgain(s, c, io); }
    } else {
      OpensNone(s, c, io);
    }
  }

  lemma OpensNone(s: Seat, c: ClientId, io: Io)
    requires c in s.clients && OpenDevice(s, c, io).at.None?
    ensures !MayOpen(s, c, io)
  {
    hide FreshDeviceId;
    if s.clients[c].state == Active && io.resolved.Some? {
      var i := IndexOfPath(s.clients[c].devices, io.resolved.value.path);
    }
  }

  lemma OpensOne(s: Seat, c: ClientId, io: Io)
    requires c in s.clients && OpenDevice(s, c, io).at.Some?
    ensures MayOpen(s, c, io)
    ensures var got := OpenDevice(s, c, io);
            && OneMore(s.clients[c].devices, got.s.clients[c].devices, io.resolved.value,
                       got.s.clients[c].devices[got.at.value].id)
            && got.s == WithTable(s, c, got.s.clients[c].devices, [OpenedDevice(c, io.resolved.value.path)])
  {
    var ds := s.clients[c].devices;
    var i := IndexOfPath(ds, io.resolved.value.path);
    if i < |ds| { assert ds[i].path == io.resolved.value.path; }
  }

  lemma DropsAgain(s: Seat, c: ClientId, io: Io)
    requires c in s.clients && OpenDevice(s, c, io).at.Some? && ClientOk(s.clients[c])
    ensures var got := OpenDevice(s, c, io);
            var path := io.resolved.value.path;
            CloseDevice(got.s, c, got.at.value) == s.(log := s.log + [OpenedDevice(c, path)] + [ClosedDevice(c, path)])
  {
    hide OpenDevice, CloseAt, ClientOk;
    DropsFrom(s, c, io);
    OpensOne(s, c, io);
    assert s.clients[c := s.clients[c].(devices := s.clients[c].devices)] == s.clients;
  }

  lemma DropsFrom(s: Seat, c: ClientId, io: Io)
    requires c in s.clients && OpenDevice(s, c, io).at.Some? && ClientOk(s.clients[c])
    ensures var got := OpenDevice(s, c, io);
            var ds := got.s.clients[c].devices;
            CloseAt(ds, got.at.value) == s.clients[c].devices && ds[got.at.value].path == io.resolved.value.path
  {
    hide FreshDeviceId;
    var got, ds := OpenDevice(s, c, io), s.clients[c].devices;
    var i := IndexOfPath(ds, io.resolved.value.path);
    if i < |ds| {
      assert ds[i].refCnt >= 1;
      assert ds[i := ds[i].(refCnt := ds[i].refCnt + 1)][i := ds[i]] == ds;
    }
  }

  // close_device: the entry with that number loses a reference, and no other entry is touched.
  lemma CloseOutcome(s: Seat, c: ClientId, id: int, io: Io)
    requires Inv(s) && c in s.order
    ensures Linked(s) && c in s.clients
    ensures var h, ds := Handle(s, c, CloseDeviceReq(id), io), s.clients[c].devices;
            && (forall i :: 0 <= i < |ds| && ds[i].id == id ==>
                  exists r: seq<Device> ::
                    && OneLess(ds, r, i) && r == h.s.clients[c].devices
                    && Says(WithTable(s, c, r, [ClosedDevice(c, ds[i].path)]), h, c, DeviceClosed, io))
            && ((forall i :: 0 <= i < |ds| ==> ds[i].id != id) ==> Says(s, h, c, Error, io))
  {
    hide Ready;
    MemberIs(s, c);
    var h, ds := Handle(s, c, CloseDeviceReq(id), io), s.clients[c].devices;
    forall i | 0 <= i < |ds| && ds[i].id == id
      ensures OneLess(ds, h.s.clients[c].devices, i)
      ensures Says(WithTable(s, c, h.s.clients[c].devices, [ClosedDevice(c, ds[i].path)]), h, c, DeviceClosed, io)
    {
      assert IndexOfId(ds, id) == i;
    }
  }

  // ---------------------------------------------------------------- joining

  // Where the current VT is looked up.
  function LookedUp(s: Seat, io: Io): Seat {
    if s.vtBound && io.vt > 0 then s.(curVt := io.vt) else s
  }

  // A client may join once, and on a VT-bound seat only when nobody is in the way.
  predicate MayJoin(s: Seat, c: ClientId) {
    && c in s.clients && !s.clients[c].seated && s.clients[c].session == -1
    && (s.vtBound && s.active.Some? ==>
          s.active.value in s.clients && s.clients[s.active.value].state == PendingDisable)
  }

  predicate HasRoom(s: Seat) {
    s.vtBound ==> s.curVt != -1 && (s.active.Some? ==> !Taken(s, s.curVt))
  }

  predicate Taken(s: Seat, n: int) {
    exists d :: d in s.order && d in s.clients && s.clients[d].session == n
  }

  // The session of a newcomer: the current VT, or the least number from 1 on that is not taken.
  predicate SessionFor(s: Seat, n: int) {
    if s.vtBound then n == s.curVt else n >= 1 && !Taken(s, n) && forall k :: 1 <= k < n ==> Taken(s, k)
  }

  // A newcomer is the first of the list.
  function Joined(s: Seat, c: ClientId, n: int): Seat
    requires c in s.clients
  {
    s.(order := [c] + s.order, clients := s.clients[c := s.clients[c].(session := n, seated := true)])
  }

  // open_seat
  lemma JoinOutcome(s: Seat, c: ClientId, io: Io) returns (n: int, r: Seat)
    requires Inv(s) && c in s.clients
    ensures Linked(s)
    ensures var h, w := Handle(s, c, OpenSeatReq, io), LookedUp(s, io);
            if !MayJoin(s, c) then h == Done(s, false)
            else if !HasRoom(w) then h == Done(w, false)
            else
              && SessionFor(w, n)
              && var v := Joined(w, c, n);
                 if !io.put then h == Done(v, false)
                 else
                   var u := v.(log := v.log + [Replied(c, SeatOpened)]);
                   h == Done(r, true) && if s.active.Some? then r == u else Offered(u, r, c, io)
  {
    hide Ready, OpenClient, Offered, MinFree;
    IsLinked(s);
    AddOutcome(s, c, io);
    AddClientKeeps(s, c, io);
    var added := AddClient(s, c, io);
    n, r := 0, s;
    if added.ok {
      n := added.s.clients[c].session;
      var u := Emit(added.s, Replied(c, SeatOpened));
      r := OpenClient(u, c, io);
      LogIsFree(added.s, u.log);
      if s.active.Some? { NotNow(u, c, io); } else { OffersNewcomer(u, c, io); }
    }
  }

  lemma NotNow(s: Seat, c: ClientId, io: Io)
    requires c in s.clients && s.active.Some?
    ensures OpenClient(s, c, io) == s
  {
  }

  lemma OffersNewcomer(s: Seat, c: ClientId, io: Io)
    requires Inv(s) && s.active.None? && c in s.order && c in s.clients
    ensures Offered(s, OpenClient(s, c, io), c, io)
  {
    hide Ready, OpenClient, Offered;
    OffersSeat(s, c, io);
  }

  lemma TakenIsUsed(s: Seat, n: int)
    requires Listed(s)
    ensures Taken(s, n) <==> n in SessionSet(s)
  {
    if Taken(s, n) {
      var d :| d in s.order && d in s.clients && s.clients[d].session == n;
      var i :| 0 <= i < |s.order| && s.order[i] == d;
    }
  }

  lemma AddOutcome(s: Seat, c: ClientId, io: Io)
    requires Inv(s) && c in s.clients && Linked(s)
    ensures var a, w := AddClient(s, c, io), LookedUp(s, io);
            if !MayJoin(s, c) then a == Done(s, false)
            else if !HasRoom(w) then a == Done(w, false)
            else
              && c in a.s.clients && SessionFor(w, a.s.clients[c].session)
              && a == Done(Joined(w, c, a.s.clients[c].session), true)
  {
    hide Ready, SessionSet;
    var w := LookedUp(s, io);
    TakenIsUsed(w, w.curVt);
    if !s.vtBound {
      var n := MinFree(SessionSet(s), 1);
      TakenIsUsed(s, n);
      forall k | 1 <= k < n ensures Taken(s, k) { TakenIsUsed(s, k); }
    }
  }

  // ---------------------------------------------------------------- leaving

  // One close for every reference, ...
  ghost predicate ClosesAll(es: seq<Effect>, c: ClientId, ds: seq<Device>) {
    && (forall i :: 0 <= i < |es| ==> es[i].ClosedDevice? && es[i].c == c)
    && (forall path: string :: multiset(es)[ClosedDevice(c, path)] == D.Refs(ds, path))
  }

  // ... and one for every VT grouped under the client.
  ghost predicate ClosesVts(es: seq<Effect>, c: ClientId, groups: seq<GroupVt>) {
    && (forall i :: 0 <= i < |es| ==> es[i].VtClosed?)
    && (forall vt: int :: multiset(es)[VtClosed(vt)] == if GroupVt(vt, c) in groups then 1 else 0)
  }

  ghost predicate Strikes(groups: seq<GroupVt>, r: seq<GroupVt>, c: ClientId) {
    forall g: GroupVt :: g in r <==> g in groups && g.owner != c
  }

  ghost predicate Drops(order: seq<ClientId>, r: seq<ClientId>, c: ClientId) {
    exists i :: 0 <= i < |order| && order[i] == c && r == order[..i] + order[i + 1..]
  }

  // `c` is off the seat, with everything that was its own.
  ghost predicate Off(s: Seat, u: Seat, c: ClientId) {
    && c in s.clients && c in u.clients
    && u == s.(
         next := if s.next == Some(c) then None else s.next,
         active := if s.active == Some(c) then None else s.active,
         order := u.order, groups := u.groups, log := u.log,
         clients := s.clients[c := s.clients[c].(seated := false, state := Closed, devices := [])])
    && Drops(s.order, u.order, c) && Strikes(s.groups, u.groups, c)
    && exists es, vs: seq<Effect> ::
         ClosesAll(es, c, s.clients[c].devices) && ClosesVts(vs, c, s.groups) && u.log == s.log + es + vs
  }

  // Its seat is given away if it had it; its own VT is closed unless somebody got the seat.
  ghost predicate Removed(s: Seat, r: Seat, c: ClientId, io: Io) {
    exists u, v: Seat ::
      && Off(s, u, c) && (if s.active == Some(c) then Given(u, v, io) else v == u)
      && r == v.(log := v.log +
           On(s.vtBound && (s.active == Some(c) ==> v.active.None?), VtClosed(s.clients[c].session)))
  }

  lemma {:induction false} CountsCloses(c: ClientId, ds: seq<Device>, path: string)
    requires forall i :: 0 <= i < |ds| ==> ds[i].refCnt >= 1
    ensures multiset(ClosesOf(c, ds))[ClosedDevice(c, path)] == D.Refs(ds, path)
    decreases Weight(ds)
  {
    if ds != [] {
      CloseAtLowersWeight(ds);
      var rest := CloseAt(ds, 0);
      assert forall i :: 0 <= i < |rest| ==> rest[i].refCnt >= 1;
      CountsCloses(c, rest, path);
      D.RefsDropped(ds, 0, path);
      var e := ClosedDevice(c, ds[0].path);
      assert ClosesOf(c, ds) == [e] + ClosesOf(c, rest);
      assert multiset([e] + ClosesOf(c, rest)) == multiset{e} + multiset(ClosesOf(c, rest));
    }
  }

  lemma {:induction false} OnlyCloses(c: ClientId, ds: seq<Device>)
    ensures forall i :: 0 <= i < |ClosesOf(c, ds)| ==> ClosesOf(c, ds)[i].ClosedDevice? && ClosesOf(c, ds)[i].c == c
    decreases Weight(ds)
  {
    if ds != [] {
      CloseAtLowersWeight(ds);
      OnlyCloses(c, CloseAt(ds, 0));
    }
  }

  lemma ClosesThemAll(c: ClientId, ds: seq<Device>)
    requires forall i :: 0 <= i < |ds| ==> ds[i].refCnt >= 1
    ensures ClosesAll(ClosesOf(c, ds), c, ds)
  {
    OnlyCloses(c, ds);
    forall path: string ensures multiset(ClosesOf(c, ds))[ClosedDevice(c, path)] == D.Refs(ds, path) {
      CountsCloses(c, ds, path);
    }
  }

  lemma {:induction false} CountsVts(groups: seq<GroupVt>, c: ClientId, vt: int)
    requires forall i, j :: 0 <= i < j < |groups| ==> groups[i].vt != groups[j].vt
    ensures multiset(GroupsOfClosed(groups, c))[VtClosed(vt)] == if GroupVt(vt, c) in groups then 1 else 0
  {
    if groups != [] {
      var g, rest := groups[0], groups[1..];
      CountsVts(rest, c, vt);
      assert groups == [g] + rest;
      if g.owner == c {
        assert GroupsOfClosed(groups, c) == [VtClosed(g.vt)] + GroupsOfClosed(rest, c);
        assert multiset([VtClosed(g.vt)] + GroupsOfClosed(rest, c)) ==
               multiset{VtClosed(g.vt)} + multiset(GroupsOfClosed(rest, c));
      }
      if g.vt == vt { assert GroupVt(vt, c) !in rest; }
    }
  }

  lemma ClosesTheVts(s: Seat, c: ClientId)
    requires Ready(s)
    ensures ClosesVts(if s.vtBound then GroupsOfClosed(s.groups, c) else [], c, s.groups)
  {
    forall vt: int
      ensures multiset(GroupsOfClosed(s.groups, c))[VtClosed(vt)] == if GroupVt(vt, c) in s.groups then 1 else 0
    {
      CountsVts(s.groups, c, vt);
    }
  }

  lemma {:induction false} DropsAt(order: seq<ClientId>, c: ClientId, i: nat)
    requires Distinct(order) && i < |order| && order[i] == c
    ensures Without(order, c) == order[..i] + order[i + 1..]
  {
    if i == 0 {
      U.WithoutAbsent(order[1..], c);
    } else {
      var rest := order[1..];
      DropsAt(rest, c, i - 1);
      assert [order[0]] + (rest[..i - 1] + rest[i..]) == order[..i] + order[i + 1..];
    }
  }

  lemma DropsIt(order: seq<ClientId>, c: ClientId)
    requires Distinct(order) && c in order
    ensures Drops(order, Without(order, c), c)
  {
    var i :| 0 <= i < |order| && order[i] == c;
    DropsAt(order, c, i);
  }

  lemma DetachIsOff(s: Seat, c: ClientId)
    requires Inv(s) && c in s.order
    ensures c in s.clients && Off(s, Detach(s, c), c)
  {
    hide Ready, ClosesAll, ClosesVts, Drops, ClosesOf, GroupsOfClosed, Without, GroupsNotOf;
    MemberIs(s, c);
    RosterIs(s);
    var u := Detach(s, c);
    var es, vs := ClosesOf(c, s.clients[c].devices), if s.vtBound then GroupsOfClosed(s.groups, c) else [];
    ClosesThemAll(c, s.clients[c].devices);
    ClosesTheVts(s, c);
    DropsIt(s.order, c);
    assert u.log == s.log + es + vs;
  }

  lemma RosterIs(s: Seat)
    requires Ready(s)
    ensures Distinct(s.order)
  {
  }

  // seat_remove_client
  lemma RemoveOutcome(s: Seat, c: ClientId, io: Io)
    requires Inv(s) && c in s.order
    ensures Linked(s) && c in s.clients && Removed(s, RemoveClient(s, c, io), c, io)
  {
    hide Ready, Off, Given, Detach, Activate;
    MemberIs(s, c);
    DetachKeeps(s, c);
    DetachIsOff(s, c);
    var u := Detach(s, c);
    OffIs(s, u, c);
    if s.active == Some(c) { GivesSeat(u, io); }
    var v := Vacate(s, c, io);
    assert RemoveClient(s, c, io) == v.(log := v.log +
      On(s.vtBound && (s.active == Some(c) ==> v.active.None?), VtClosed(s.clients[c].session)));
  }

  lemma OffIs(s: Seat, u: Seat, c: ClientId)
    requires Off(s, u, c)
    ensures s.active == Some(c) ==> u.active.None?
  {
  }

  // The way there: off the seat, and then with the seat given away.
  lemma RemovedIs(s: Seat, r: Seat, c: ClientId, io: Io) returns (u: Seat, v: Seat)
    requires Removed(s, r, c, io)
    ensures Off(s, u, c) && c in s.clients && (if s.active == Some(c) then Given(u, v, io) else v == u)
    ensures r == v.(log := v.log +
              On(s.vtBound && (s.active == Some(c) ==> v.active.None?), VtClosed(s.clients[c].session)))
  {
    hide Given, ClosesAll, ClosesVts, Strikes, Drops;
    u, v :|
      && Off(s, u, c) && (if s.active == Some(c) then Given(u, v, io) else v == u)
      && r == v.(log := v.log +
           On(s.vtBound && (s.active == Some(c) ==> v.active.None?), VtClosed(s.clients[c].session)));
  }

  // close_seat
  lemma CloseSeatOutcome(s: Seat, c: ClientId, io: Io) returns (r: Seat)
    requires Inv(s) && c in s.order
    ensures Linked(s) && c in s.clients
    ensures Removed(s, r, c, io) && Says(r, Handle(s, c, CloseSeatReq, io), c, SeatClosed, io)
  {
    hide Ready, Removed, RemoveClient;
    MemberIs(s, c);
    RemoveOutcome(s, c, io);
    r := RemoveClient(s, c, io);
  }

  // A client that is gone is forgotten.
  lemma DisconnectOutcome(s: Seat, t: Turn) returns (r: Seat)
    requires Inv(s) && t.step.Disconnect?
    ensures var c := t.step.c;
            if c !in s.clients then Take(s, t) == s
            else
              && (if c in s.order then Removed(s, r, c, t.io2) else r == s)
              && Take(s, t) == r.(clients := r.clients - {c}, log := r.log + [Gone(c)])
  {
    hide Ready, Removed, RemoveClient;
    var c := t.step.c;
    r := s;
    if c in s.order {
      MemberIs(s, c);
      RemoveOutcome(s, c, t.io2);
      r := RemoveClient(s, c, t.io2);
    } else if c in s.clients {
      Outsider(s, c);
    }
  }

  lemma Outsider(s: Seat, c: ClientId)
    requires Ready(s) && c in s.clients && c !in s.order
    ensures !s.clients[c].seated
  {
  }

  // Anybody may ping; every other request needs a seat.
  lemma StrangerOutcome(s: Seat, c: ClientId, req: Request, io: Io)
    requires Inv(s) && c in s.clients
    ensures Linked(s) && (req == PingReq ==> Says(s, Handle(s, c, req, io), c, Pong, io))
    ensures c !in s.order && req != PingReq && req != OpenSeatReq ==> Handle(s, c, req, io) == Done(s, false)
  {
    hide Ready;
    IsLinked(s);
    if c !in s.order { Outsider(s, c); }
  }

  // ---------------------------------------------------------------- VTs

  // A VT event: the active client keeps the seat, with its DRM devices, on a VT that is its own, and
  // is told to let go on any other; a free seat is given away.
  lemma EventOutcome(s: Seat, t: Turn)
    requires Inv(s) && t.step.Event?
    ensures var m, r := s.(curVt := t.step.newVt, pendingVt := 0,
                           log := s.log + [VtChanged(t.step.oldVt, t.step.newVt)]), Take(s, t);
            if s.active.None? then Given(m, r, t.io)
            else
              var a := s.active.value;
              if Holds(m, a, m.curVt) then
                && a in s.clients && OnlyClient(m, r, a) && r.log == m.log
                && r.clients[a] == s.clients[a].(devices := r.clients[a].devices)
                && AllResumed(s.clients[a].devices, r.clients[a].devices)
              else if a in s.clients && s.clients[a].state == Active then Suspended(m, r, a, t.io)
              else r == m
  {
    hide Ready, Given, Activate, OwnsVt, Holds, Suspended;
    var m := Moved(s, t.step.oldVt, t.step.newVt);
    IsLinked(s);
    PendingIs(s);
    MovedIsReady(s, t.step.oldVt, t.step.newVt);
    if s.active.None? {
      GivesSeat(m, t.io);
    } else {
      var a := s.active.value;
      OwnsIsHolds(m, a, m.curVt);
      if s.clients[a].state == Active { DisableSuspends(m, a, t.io); }
    }
  }

  lemma PendingIs(s: Seat)
    requires Ready(s)
    ensures s.pendingVt >= 0 && (!s.vtBound ==> s.pendingVt == 0)
  {
  }

  // DRM devices are taken away, and nothing else is touched.
  predicate MasterDropped(ds: seq<Device>, r: seq<Device>, fails: set<int>) {
    && |r| == |ds|
    && forall i :: 0 <= i < |ds| ==> if ds[i].kind == Drm then Revoked(ds[i], r[i], fails) else r[i] == ds[i]
  }

  // A release signal: the active client loses DRM master unless the daemon itself is switching to a VT
  // of that client.
  lemma ReleaseOutcome(s: Seat, t: Turn)
    requires Inv(s) && t.step == SignalRelease
    ensures var w, r := LookedUp(s, t.io), Take(s, t);
            if s.vtBound && s.active.Some? && s.active.value in s.clients && s.clients[s.active.value].state == Active
               && !(s.pendingVt > 0 && Holds(s, s.active.value, s.pendingVt))
            then
              var a := s.active.value;
              && OnlyClient(w, r, a) && r.log == s.log
              && r.clients[a] == s.clients[a].(devices := r.clients[a].devices)
              && MasterDropped(s.clients[a].devices, r.clients[a].devices, t.io.revokeFails)
            else r == w
  {
    hide Ready, OwnsVt, Holds;
    IsLinked(s);
    if s.active.Some? {
      var a := s.active.value;
      OwnsIsHolds(s, a, s.pendingVt);
      SameVts(s, LookedUp(s, t.io), a, s.pendingVt);
    }
  }

  lemma SameVts(s: Seat, r: Seat, a: ClientId, vt: int)
    requires a in s.clients && r == s.(curVt := r.curVt)
    ensures OwnsVt(r, a, vt) == OwnsVt(s, a, vt)
  {
  }

  // So where it has a DRM device that can be taken away, its table stays as it is if and only if the
  // switch is one of the daemon's own towards a VT of the client.
  lemma MasterIsKept(s: Seat, t: Turn, c: ClientId, i: nat)
    requires Inv(s) && t.step == SignalRelease && s.vtBound && s.active == Some(c)
    requires c in s.clients && s.clients[c].state == Active && i < |s.clients[c].devices|
    requires var d := s.clients[c].devices[i]; d.kind == Drm && d.active && d.id !in t.io.revokeFails
    ensures c in Take(s, t).clients
    ensures Take(s, t).clients[c].devices == s.clients[c].devices <==> s.pendingVt > 0 && Holds(s, c, s.pendingVt)
  {
    hide Inv, Take, Holds;
    ReleaseOutcome(s, t);
  }

  // An acquire signal, or a question about the current VT, is an occasion to look it up.
  lemma AcquireOutcome(s: Seat, t: Turn)
    requires Inv(s) && (t.step == SignalAcquire || t.step == ControlActiveVt)
    ensures Take(s, t) == LookedUp(s, t.io)
  {
  }

  // The switch of the control socket asks for the VT it names.
  lemma ControlSwitchOutcome(s: Seat, t: Turn)
    requires Inv(s) && t.step.ControlSwitch?
    ensures var n, w := t.step.vt, LookedUp(s, t.io);
            Take(s, t) ==
              if !s.vtBound || n <= 0 || t.io.vt <= 0 then s
              else if w.curVt != n && s.pendingVt == 0 && t.io.vtSwitch then
                w.(pendingVt := n, log := s.log + [VtActivated(n)])
              else w
  {
    hide Members, ActiveOk, GroupsOk, SessionsOk;
  }

  // A VT is grouped under the first member that runs as the process, if it is free.
  lemma GroupOutcome(s: Seat, t: Turn) returns (o: Option<ClientId>)
    requires Inv(s) && t.step.ControlCreate?
    ensures if o.None? then forall d :: d in s.order ==> d in s.clients && s.clients[d].pid != t.step.pid
            else exists i :: 0 <= i < |s.order| && s.order[i] == o.value && FirstWithPid(s, i, t.step.pid)
    ensures var vt := if t.step.vt > 0 then t.step.vt else t.io.freeVt;
            Take(s, t) ==
              if && o.Some? && s.vtBound && (t.step.vt > 0 || vt != -1) && t.io.vtOpen
                 && o.value in s.clients && s.clients[o.value].session != vt
                 && (forall g :: g in s.groups ==> g.vt != vt)
              then s.(groups := [GroupVt(vt, o.value)] + s.groups, log := s.log + [VtOpened(vt)])
              else s
  {
    hide Ready;
    IsLinked(s);
    var i := IndexOfPid(s, t.step.pid, 0);
    if i == |s.order| {
      o := None;
    } else {
      o := Some(s.order[i]);
      MemberIs(s, s.order[i]);
      assert FirstWithPid(s, i, t.step.pid);
      NobodysVt(s.groups, if t.step.vt > 0 then t.step.vt else t.io.freeVt);
    }
  }

  predicate FirstWithPid(s: Seat, i: nat, pid: int)
    requires i < |s.order|
  {
    && s.order[i] in s.clients && s.clients[s.order[i]].pid == pid
    && forall j :: 0 <= j < i ==> s.order[j] in s.clients && s.clients[s.order[j]].pid != pid
  }

  lemma NobodysVt(groups: seq<GroupVt>, vt: int)
    ensures GroupOwner(groups, vt).None? <==> forall g :: g in groups ==> g.vt != vt
  {
  }

  // Ungrouping a VT frees that one and no other.
  lemma UngroupOutcome(s: Seat, t: Turn)
    requires Inv(s) && t.step.ControlDestroy?
    ensures var vt, r := t.step.vt, Take(s, t);
            && r == s.(groups := r.groups, log := r.log)
            && (forall g: GroupVt :: g in r.groups <==> g in s.groups && g.vt != vt)
            && |r.groups| == |s.groups| - (if exists g :: g in s.groups && g.vt == vt then 1 else 0)
            && r.log == s.log + On(exists g :: g in s.groups && g.vt == vt, VtClosed(vt))
  {
    hide Members, ActiveOk, SessionsOk;
    var i := IndexOfGroup(s.groups, t.step.vt);
    if i < |s.groups| {
      assert s.groups[i] in s.groups;
      TakesOut(s.groups, i);
    }
  }

  lemma TakesOut(groups: seq<GroupVt>, i: nat)
    requires i < |groups| && forall j, k :: 0 <= j < k < |groups| ==> groups[j].vt != groups[k].vt
    ensures forall g: GroupVt :: g in RemoveAt(groups, i) <==> g in groups && g.vt != groups[i].vt
  {
    var r := RemoveAt(groups, i);
    forall g: GroupVt ensures g in r <==> g in groups && g.vt != groups[i].vt {
      if g in groups && g.vt != groups[i].vt {
        var j :| 0 <= j < |groups| && groups[j] == g;
        assert r[if j < i then j else j - 1] == g;
      }
      if g in r {
        var k :| 0 <= k < |r| && r[k] == g;
        assert groups[if k < i then k else k + 1] == g;
      }
    }
  }

  // A connection is a client without a seat.
  lemma ConnectOutcome(s: Seat, t: Turn)
    requires Inv(s) && t.step.Connect?
    ensures s.nextId !in s.clients
    ensures Take(s, t) ==
            s.(clients := s.clients[s.nextId := Client(t.step.pid, false, -1, New, [])], nextId := s.nextId + 1)
  {
  }
}
