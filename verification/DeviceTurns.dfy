// Opening and closing devices, a turn at a time: what a request does to the references of a client.
module DeviceTurns {
  import opened Options
  import opened SeatSpec
  import opened SeatInvariant
  import opened SeatMoves
  import opened SeatRuns
  import opened SeatDevices
  import opened SeatOutcomes

  lemma LessRefs(ds: seq<Device>, r: seq<Device>, i: nat, path: string)
    requires i < |ds| && ds[i].refCnt >= 1 && OneLess(ds, r, i)
    ensures Refs(r, path) == Refs(ds, path) - if ds[i].path == path then 1 else 0
  {
    assert r == CloseAt(ds, i);
    RefsDropped(ds, i, path);
  }

  // A request that is answered and flushed.
  predicate Served(t: Turn, c: ClientId, req: Request) {
    t.step == Serve(c, req) && t.io.put && t.io.flush
  }

  lemma ServedIs(s: Seat, t: Turn, c: ClientId, req: Request)
    requires Inv(s) && c in s.clients && Served(t, c, req)
    ensures Linked(s) && (Handle(s, c, req, t.io).ok ==> Take(s, t) == Handle(s, c, req, t.io).s)
  {
    hide Inv, Take, Handle;
    ServeOutcome(s, t);
  }

  // close_device takes one reference from the path of the device it names, and none from any other;
  // the entries of other devices stay, and so do all other clients.
  lemma CloseTakesOne(s: Seat, t: Turn, c: ClientId, id: int, i: nat)
    requires Inv(s) && Member(s, c) && Served(t, c, CloseDeviceReq(id))
    requires i < |s.clients[c].devices| && s.clients[c].devices[i].id == id
    ensures var d, r := s.clients[c].devices[i], Take(s, t);
            && (forall path: string :: RefsOf(r, c, path) == RefsOf(s, c, path) - if path == d.path then 1 else 0)
            && c in r.clients && (forall e :: e in s.clients[c].devices && e != d ==> e in r.clients[c].devices)
            && (forall e :: e in r.clients[c].devices && e.id != id ==> e in s.clients[c].devices)
            && r == s.(clients := s.clients[c := s.clients[c].(devices := r.clients[c].devices)],
                       log := s.log + [ClosedDevice(c, d.path)] + [Replied(c, DeviceClosed)])
  {
    hide Ready, Take, Handle, RefsOf, Refs;
    MemberIs(s, c);
    ServedIs(s, t, c, CloseDeviceReq(id));
    CloseOutcome(s, c, id, t.io);
    var h, ds := Handle(s, c, CloseDeviceReq(id), t.io), s.clients[c].devices;
    var r: seq<Device> :|
      && OneLess(ds, r, i) && r == h.s.clients[c].devices
      && Says(WithTable(s, c, r, [ClosedDevice(c, ds[i].path)]), h, c, DeviceClosed, t.io);
    forall path: string ensures RefsOf(h.s, c, path) == RefsOf(s, c, path) - if path == ds[i].path then 1 else 0 {
      LessRefs(ds, r, i, path);
      RefsIs(h.s, c, path);
      RefsIs(s, c, path);
    }
    OthersStayIn(ds, r, i);
  }

  lemma RefsIs(s: Seat, c: ClientId, path: string)
    requires c in s.clients
    ensures RefsOf(s, c, path) == Refs(s.clients[c].devices, path)
  {
  }

  lemma OthersStayIn(ds: seq<Device>, r: seq<Device>, i: nat)
    requires i < |ds| && OneLess(ds, r, i) && DevicesOk(ds)
    ensures forall e :: e in ds && e != ds[i] ==> e in r
    ensures forall e :: e in r && e.id != ds[i].id ==> e in ds
  {
    forall e | e in ds && e != ds[i] ensures e in r {
      var j :| 0 <= j < |ds| && ds[j] == e;
      assert r[if ds[i].refCnt > 1 || j < i then j else j - 1] == e;
    }
  }

  // With no such device, nothing changes and the answer is an error.
  lemma CloseOfNothing(s: Seat, t: Turn, c: ClientId, id: int)
    requires Inv(s) && Member(s, c) && Served(t, c, CloseDeviceReq(id))
    requires forall i :: 0 <= i < |s.clients[c].devices| ==> s.clients[c].devices[i].id != id
    ensures Take(s, t) == s.(log := s.log + [Replied(c, Error)])
  {
    hide Inv, Take, Handle;
    ServedIs(s, t, c, CloseDeviceReq(id));
    CloseOutcome(s, c, id, t.io);
  }

  // open_device was answered with this number.
  predicate Got(s: Seat, r: Seat, c: ClientId, id: int) {
    c in r.clients && |r.log| > |s.log| && r.log[|r.log| - 1] == Replied(c, DeviceOpened(id))
  }

  // An open that succeeds adds one reference to the path it resolved to, under the number it answers.
  lemma OpenAddsOne(s: Seat, t: Turn, c: ClientId, id: int)
    requires Inv(s) && Member(s, c) && t.step == Serve(c, OpenDeviceReq) && Got(s, Take(s, t), c, id)
    ensures t.io.resolved.Some?
    ensures var node, r := t.io.resolved.value, Take(s, t);
            && r == s.(clients := s.clients[c := s.clients[c].(devices := r.clients[c].devices)],
                       log := s.log + [OpenedDevice(c, node.path)] + [Replied(c, DeviceOpened(id))])
            && OneMore(s.clients[c].devices, r.clients[c].devices, node, id)
            && (exists d :: d in r.clients[c].devices && d.id == id && d.path == node.path)
            && (forall path: string :: RefsOf(r, c, path) == RefsOf(s, c, path) + if path == node.path then 1 else 0)
  {
    hide Ready, Take, Handle, RefsOf, OneMore;
    MemberIs(s, c);
    ServeOutcome(s, t);
    var ds, n := OpenOutcome(s, c, t.io);
    var h := Handle(s, c, OpenDeviceReq, t.io);
    if !(h.ok && t.io.flush) { var w := DisconnectOutcome(h.s, t.(step := Disconnect(c))); }
    var node := t.io.resolved.value;
    var was := s.clients[c].devices;
    forall path: string ensures Refs(ds, path) == Refs(was, path) + if path == node.path then 1 else 0 {
      MoreRefs(was, ds, node, id, path);
    }
    MoreRefs(was, ds, node, id, node.path);
    forall path: string ensures RefsOf(h.s, c, path) == RefsOf(s, c, path) + if path == node.path then 1 else 0 {
      RefsIs(h.s, c, path);
      RefsIs(s, c, path);
    }
  }

  lemma MoreRefs(ds: seq<Device>, r: seq<Device>, node: Node, id: int, path: string)
    requires OneMore(ds, r, node, id)
    ensures Refs(r, path) == Refs(ds, path) + if path == node.path then 1 else 0
    ensures exists d :: d in r && d.id == id && d.path == node.path
  {
    if HasPath(ds, node.path) {
      var i :| 0 <= i < |ds| && ds[i].path == node.path && ds[i].id == id
               && r == ds[i := ds[i].(refCnt := ds[i].refCnt + 1)];
      RefsSet(ds, i, r[i], path);
      assert r[i] in r;
    } else {
      RefsConcat([r[0]], ds, path);
      assert [r[0]][..0] == [] && r[0] in r;
    }
  }

  // Closing the device with the number an open was answered with undoes the open.
  lemma CloseUndoesOpen(s: Seat, c: ClientId, id: int, t1: Turn, t2: Turn)
    requires Inv(s) && Member(s, c) && t1.step == Serve(c, OpenDeviceReq) && Got(s, Take(s, t1), c, id)
    requires Served(t2, c, CloseDeviceReq(id))
    ensures var r := Take(Take(s, t1), t2);
            && r == s.(log := r.log) && r.log == Take(s, t1).log + [ClosedDevice(c, t1.io.resolved.value.path)]
                                                 + [Replied(c, DeviceClosed)]
  {
    hide Ready, Take, Handle, RefsOf;
    MemberIs(s, c);
    OpenAddsOne(s, t1, c, id);
    var s1, node := Take(s, t1), t1.io.resolved.value;
    MemberIs(s1, c);
    var i := Undoes(s.clients[c].devices, s1.clients[c].devices, node, id);
    ServedIs(s1, t2, c, CloseDeviceReq(id));
    CloseOutcome(s1, c, id, t2.io);
    var h := Handle(s1, c, CloseDeviceReq(id), t2.io);
    var r: seq<Device> :|
      && OneLess(s1.clients[c].devices, r, i) && r == h.s.clients[c].devices
      && Says(WithTable(s1, c, r, [ClosedDevice(c, s1.clients[c].devices[i].path)]), h, c, DeviceClosed, t2.io);
    assert s.clients[c := s.clients[c].(devices := r)] == s.clients;
  }

  lemma Undoes(ds: seq<Device>, up: seq<Device>, node: Node, id: int) returns (i: nat)
    requires DevicesOk(ds) && OneMore(ds, up, node, id)
    ensures i < |up| && up[i].id == id && up[i].path == node.path
    ensures forall r: seq<Device> :: OneLess(up, r, i) ==> r == ds
  {
    if HasPath(ds, node.path) {
      i :| 0 <= i < |ds| && ds[i].path == node.path && ds[i].id == id
           && up == ds[i := ds[i].(refCnt := ds[i].refCnt + 1)];
      assert up[i := ds[i]] == ds;
    } else {
      i := 0;
      assert up[..0] + up[1..] == ds;
    }
  }
}
