// Switching sessions on a seat without VTs, from the request to the client it was made for.
module SeatHandover {
  import opened Options
  import opened SeatSpec
  import opened SeatInvariant
  import opened SeatMoves
  import opened SeatRuns
  import opened SeatOutcomes
  import U = SeatUnbound

  // `m` with session `n` waits for `c` to let go of the seat.
  predicate Queued(s: Seat, c: ClientId, m: ClientId, n: int) {
    && !s.vtBound && c in s.clients && s.active == Some(c) && s.clients[c].state == PendingDisable
    && c != m && s.next == Some(m) && Member(s, m) && s.clients[m].session == n
  }

  // `m` has the seat.
  predicate Has(s: Seat, m: ClientId, n: int) {
    && !s.vtBound && s.active == Some(m) && Member(s, m)
    && s.clients[m].state == Active && s.clients[m].session == n
  }

  // A free seat goes to whoever waits for it.
  lemma GivenToQueued(s: Seat, r: Seat, m: ClientId, io: Io)
    requires !s.vtBound && s.next == Some(m) && Member(s, m) && Given(s, r, io) && io.send.Delivered?
    ensures Has(r, m, s.clients[m].session)
  {
    assert Chosen(s, m);
  }

  lemma RemovalServesQueue(s: Seat, c: ClientId, m: ClientId, n: int, r: Seat, io: Io)
    requires Queued(s, c, m, n) && Removed(s, r, c, io) && io.send.Delivered?
    ensures Has(r, m, n)
  {
    hide Given, ClosesAll, ClosesVts, Strikes;
    var u, v := RemovedIs(s, r, c, io);
    StillThere(s.order, u.order, c, m);
    GivenToQueued(u, v, m, io);
  }

  lemma StillThere(order: seq<ClientId>, r: seq<ClientId>, c: ClientId, m: ClientId)
    requires Drops(order, r, c) && m in order && m != c
    ensures m in r
  {
    var i :| 0 <= i < |order| && order[i] == c && r == order[..i] + order[i + 1..];
    var j :| 0 <= j < |order| && order[j] == m;
    assert r[if j < i then j else j - 1] == m;
  }

  // Somebody else leaves.
  lemma OthersMayLeave(s: Seat, d: ClientId, r: Seat, io: Io, m: ClientId, n: int)
    requires Removed(s, r, d, io) && s.active != Some(d) && d != m
    ensures forall c :: Queued(s, c, m, n) ==> Queued(r, c, m, n)
    ensures Has(s, m, n) ==> Has(r, m, n)
  {
    hide ClosesAll, ClosesVts, Strikes, Given;
    var u, v := RemovedIs(s, r, d, io);
    if m in s.order { StillThere(s.order, u.order, d, m); }
  }

  // The reply does not matter.
  lemma SaysNothing(s: Seat, h: Done, c: ClientId, reply: Reply, io: Io, m: ClientId, n: int)
    requires Says(s, h, c, reply, io)
    ensures (forall x :: Queued(s, x, m, n) ==> Queued(h.s, x, m, n)) && (Has(s, m, n) ==> Has(h.s, m, n))
  {
  }

  lemma OnlyOneHolds(s: Seat, c: ClientId, d: ClientId)
    requires Inv(s) && s.active == Some(c) && d in s.order && d != c
    ensures d in s.clients && s.clients[d].state != Active && s.clients[d].state != PendingDisable
  {
    MemberIs(s, d);
  }

  // Requests that are not about leaving the seat do not touch the queue.
  lemma DeviceRequests(s: Seat, d: ClientId, req: Request, io: Io, c: ClientId, m: ClientId, n: int)
    requires Inv(s) && Queued(s, c, m, n) && d in s.order && (req.OpenDeviceReq? || req.CloseDeviceReq?)
    ensures Linked(s) && d in s.clients && Queued(Handle(s, d, req, io).s, c, m, n)
  {
    hide Ready, Handle;
    MemberIs(s, d);
    if d != c { OnlyOneHolds(s, c, d); }
    if req.OpenDeviceReq? {
      var ds, id := OpenOutcome(s, d, io);
    } else {
      CloseOutcome(s, d, req.id, io);
      var ds := s.clients[d].devices;
      if i :| 0 <= i < |ds| && ds[i].id == req.id {
        hide OneLess;
        var r: seq<Device> :|
          && OneLess(ds, r, i) && r == Handle(s, d, req, io).s.clients[d].devices
          && Says(WithTable(s, d, r, [ClosedDevice(d, ds[i].path)]), Handle(s, d, req, io), d, DeviceClosed, io);
      }
    }
  }

  lemma JoinLeavesQueue(s: Seat, d: ClientId, io: Io, c: ClientId, m: ClientId, n: int)
    requires Inv(s) && Queued(s, c, m, n) && d in s.clients
    ensures Linked(s) && Queued(Handle(s, d, OpenSeatReq, io).s, c, m, n)
  {
    hide Ready, Handle, HasRoom, SessionFor, Offered;
    var k, r := JoinOutcome(s, d, io);
    if d in s.order { MemberIs(s, d); }
  }

  // What a request of another client does to the queue, or one of `c` that does not end its turn.
  lemma RequestKeepsQueue(s: Seat, d: ClientId, req: Request, io: Io, c: ClientId, m: ClientId, n: int)
    requires Inv(s) && Queued(s, c, m, n) && d in s.clients && !(req == CloseSeatReq && d == m)
    requires d == c ==> req != DisableSeatReq && req != CloseSeatReq
    ensures Linked(s) && Queued(Handle(s, d, req, io).s, c, m, n)
  {
    hide Ready, Handle, Removed, Queued;
    IsLinked(s);
    QueueIs(s, c, m, n);
    if req == OpenSeatReq {
      JoinLeavesQueue(s, d, io, c, m, n);
    } else if d !in s.order || req == PingReq {
      StrangerOutcome(s, d, req, io);
      if req == PingReq { SaysNothing(s, Handle(s, d, req, io), d, Pong, io, m, n); }
    } else {
      if d != c { OnlyOneHolds(s, c, d); }
      match req
      case OpenDeviceReq => DeviceRequests(s, d, req, io, c, m, n);
      case CloseDeviceReq(_) => DeviceRequests(s, d, req, io, c, m, n);
      case DisableSeatReq =>
        var u := AckOutcome(s, d, io);
        SaysNothing(s, Handle(s, d, req, io), d, Error, io, m, n);
      case SwitchSessionReq(k) =>
        var u := SwitchWithoutVts(s, d, k, io);
        SaysNothing(s, Handle(s, d, req, io), d, Error, io, m, n);
      case CloseSeatReq =>
        var r := CloseSeatOutcome(s, d, io);
        OthersMayLeave(s, d, r, io, m, n);
        SaysNothing(r, Handle(s, d, req, io), d, SeatClosed, io, m, n);
    }
  }

  lemma QueueIs(s: Seat, c: ClientId, m: ClientId, n: int)
    requires Queued(s, c, m, n)
    ensures !s.vtBound && c in s.clients && s.active == Some(c) && s.clients[c].state == PendingDisable && c != m
  {
  }

  // Requests of `c` that do end it hand the seat over.
  lemma RequestServesQueue(s: Seat, req: Request, io: Io, c: ClientId, m: ClientId, n: int)
    requires Inv(s) && Queued(s, c, m, n) && (req == DisableSeatReq || req == CloseSeatReq) && io.send.Delivered?
    ensures Linked(s) && Has(Handle(s, c, req, io).s, m, n)
  {
    hide Ready, Handle, Removed, Given, Has;
    IsLinked(s);
    if req == DisableSeatReq {
      var u := AckOutcome(s, c, io);
      var v := s.(active := None, clients := s.clients[c := s.clients[c].(state := Disabled)],
                  log := s.log + [DisableAcked(c)]);
      GivenToQueued(v, u, m, io);
      SaysNothing(u, Handle(s, c, req, io), c, SeatDisabled, io, m, n);
    } else {
      var r := CloseSeatOutcome(s, c, io);
      RemovalServesQueue(s, c, m, n, r, io);
      SaysNothing(r, Handle(s, c, req, io), c, SeatClosed, io, m, n);
    }
  }

  // A client that is gone: if it is `c`, the seat is handed over.
  lemma DropAndQueue(s: Seat, t: Turn, c: ClientId, m: ClientId, n: int)
    requires Inv(s) && t.step.Disconnect? && t.step.c != m && t.io2.send.Delivered?
    ensures Queued(s, c, m, n) && t.step.c != c ==> Queued(Take(s, t), c, m, n)
    ensures Queued(s, c, m, n) && t.step.c == c ==> Has(Take(s, t), m, n)
    ensures Has(s, m, n) ==> Has(Take(s, t), m, n)
  {
    hide Ready, Take, Removed;
    IsLinked(s);
    var d := t.step.c;
    var r := DisconnectOutcome(s, t);
    if d in s.clients && d in s.order {
      if s.active != Some(d) {
        OthersMayLeave(s, d, r, t.io2, m, n);
      } else if Queued(s, c, m, n) {
        RemovalServesQueue(s, c, m, n, r, t.io2);
      }
    }
  }

  predicate Sent(t: Turn) {
    t.io.send.Delivered? && t.io2.send.Delivered?
  }

  // Not a turn of this client's.
  predicate OfAnother(t: Turn, c: ClientId) {
    (t.step.Serve? || t.step.Disconnect?) ==> t.step.c != c
  }

  lemma EventKeepsQueue(s: Seat, t: Turn, c: ClientId, m: ClientId, n: int)
    requires Inv(s) && Queued(s, c, m, n) && !t.step.Serve? && !t.step.Disconnect?
    ensures Queued(Take(s, t), c, m, n)
  {
    hide Ready, Take;
    match t.step
    case Connect(_) => ConnectOutcome(s, t);
    case ControlCreate(_, _) => var o := GroupOutcome(s, t);
    case ControlDestroy(_) => UngroupOutcome(s, t);
    case ControlActiveVt => AcquireOutcome(s, t);
    case ControlSwitch(_) => ControlSwitchOutcome(s, t);
    case SignalRelease => ReleaseOutcome(s, t);
    case SignalAcquire => AcquireOutcome(s, t);
    case Event(_, _) => EventOutcome(s, t);
  }

  // While `c` has not let go, whatever others do: `m` waits for the seat as long as it is a member.
  lemma QueueWaits(s: Seat, t: Turn, c: ClientId, m: ClientId, n: int)
    requires Inv(s) && Queued(s, c, m, n) && Sent(t) && OfAnother(t, c) && Member(Take(s, t), m)
    ensures Queued(Take(s, t), c, m, n)
  {
    hide Ready, Take, Handle, Queued, Removed;
    match t.step
    case Serve(d, req) =>
      ServeOutcome(s, t);
      if d in s.clients {
        if req == CloseSeatReq && d == m {
          Leaves(s, t);
        } else {
          RequestKeepsQueue(s, d, req, t.io, c, m, n);
          var h := Handle(s, d, req, t.io);
          var drop := t.(step := Disconnect(d));
          if d == m { Leaves(h.s, drop); } else { DropAndQueue(h.s, drop, c, m, n); }
        }
      }
    case Disconnect(d) => if d == m { Leaves(s, t); } else { DropAndQueue(s, t, c, m, n); }
    case _ => EventKeepsQueue(s, t, c, m, n);
  }

  // Who disconnects or closes the seat is no member afterwards.
  lemma Leaves(s: Seat, t: Turn)
    requires Inv(s) && (t.step.Disconnect? || (t.step.Serve? && t.step.req == CloseSeatReq))
    ensures !Member(Take(s, t), t.step.c)
  {
    hide Ready, Take, Handle, Removed;
    var c := t.step.c;
    if t.step.Disconnect? {
      var r := DisconnectOutcome(s, t);
    } else {
      ServeOutcome(s, t);
      if c in s.order {
        MemberIs(s, c);
        var r := CloseSeatOutcome(s, c, t.io);
        IsOff(s, r, c, t.io);
        var r2 := DisconnectOutcome(Handle(s, c, CloseSeatReq, t.io).s, t.(step := Disconnect(c)));
      } else if c in s.clients {
        StrangerOutcome(s, c, CloseSeatReq, t.io);
        var r2 := DisconnectOutcome(s, t.(step := Disconnect(c)));
      }
    }
  }

  lemma IsOff(s: Seat, r: Seat, c: ClientId, io: Io)
    requires Inv(s) && c in s.order && Removed(s, r, c, io)
    ensures c in r.clients && !r.clients[c].seated
  {
    hide Ready, ClosesAll, ClosesVts, Strikes;
    var u, v := RemovedIs(s, r, c, io);
    RosterIs(s);
    GoneFrom(s.order, u.order, c);
    NotGivenTo(u, v, c, io);
  }

  lemma GoneFrom(order: seq<ClientId>, r: seq<ClientId>, c: ClientId)
    requires Distinct(order) && Drops(order, r, c)
    ensures c !in r
  {
  }

  lemma NotGivenTo(s: Seat, r: Seat, c: ClientId, io: Io)
    requires c in s.clients && !s.clients[c].seated && (r == s || Given(s, r, io))
    ensures c in r.clients && !r.clients[c].seated
  {
  }

  // When `c` lets go, `m` has the seat.
  lemma QueueIsServed(s: Seat, t: Turn, c: ClientId, m: ClientId, n: int)
    requires Inv(s) && Queued(s, c, m, n) && Sent(t) && t.step == Serve(c, DisableSeatReq)
    ensures Has(Take(s, t), m, n)
  {
    hide Ready, Take, Handle, Has;
    QueueIs(s, c, m, n);
    ServeOutcome(s, t);
    RequestServesQueue(s, DisableSeatReq, t.io, c, m, n);
    DropAndQueue(Handle(s, c, DisableSeatReq, t.io).s, t.(step := Disconnect(c)), c, m, n);
  }

  // `m` is a member all along the run.
  ghost predicate Stays(s: Seat, turns: seq<Turn>, m: ClientId)
    requires Inv(s)
  {
    forall k :: 0 <= k <= |turns| ==> Member(Run(s, turns[..k]), m)
  }

  lemma {:induction false} QueueWaitsOn(s: Seat, turns: seq<Turn>, c: ClientId, m: ClientId, n: int)
    requires Inv(s) && Queued(s, c, m, n) && Stays(s, turns, m)
    requires forall k :: 0 <= k < |turns| ==> Sent(turns[k]) && OfAnother(turns[k], c)
    ensures Queued(Run(s, turns), c, m, n)
  {
    hide Inv, Queued, Member, Take;
    if turns != [] {
      var i := |turns| - 1;
      StaysBefore(s, turns, m);
      QueueWaitsOn(s, turns[..i], c, m, n);
      assert turns[..|turns|] == turns;
      QueueWaits(Run(s, turns[..i]), turns[i], c, m, n);
    }
  }

  lemma StaysBefore(s: Seat, turns: seq<Turn>, m: ClientId)
    requires Inv(s) && turns != [] && Stays(s, turns, m)
    ensures Stays(s, turns[..|turns| - 1], m)
  {
    hide Inv, Member, Run;
    var i := |turns| - 1;
    forall k | 0 <= k <= i ensures Member(Run(s, turns[..i][..k]), m) { assert turns[..i][..k] == turns[..k]; }
  }

  // The request queues the member it names.
  lemma SwitchQueues(s: Seat, io: Io, c: ClientId, m: ClientId, n: int)
    requires Inv(s) && !s.vtBound && s.active == Some(c) && Member(s, m) && s.clients[m].session == n
    requires c in s.clients && s.clients[c].state == Active && s.clients[c].session != n
    ensures c in s.order && Linked(s) && Queued(Handle(s, c, SwitchSessionReq(n), io).s, c, m, n)
    ensures Handle(s, c, SwitchSessionReq(n), io).ok == io.put
  {
    hide Ready, Handle, AllRevoked;
    IsLinked(s);
    var u := SwitchWithoutVts(s, c, n, io);
    OneWithSession(s, u.next.value, m);
  }

  lemma OneWithSession(s: Seat, a: ClientId, b: ClientId)
    requires Inv(s) && !s.vtBound && a in s.order && b in s.order
    ensures a in s.clients && b in s.clients && (s.clients[a].session == s.clients[b].session ==> a == b)
  {
    MemberIs(s, a);
    MemberIs(s, b);
  }

  // A session that the ACTIVE client asks for gets the seat when that client lets go, with any turns of
  // others in between, as long as the client with that session stays.
  lemma SwitchReaches(s: Seat, c: ClientId, m: ClientId, n: int, t1: Turn, turns: seq<Turn>, t2: Turn)
    requires Inv(s) && !s.vtBound && s.active == Some(c) && Member(s, m) && s.clients[m].session == n
    requires c in s.clients && s.clients[c].state == Active && s.clients[c].session != n
    requires t1.step == Serve(c, SwitchSessionReq(n)) && t1.io.put && t1.io.flush
    requires t2.step == Serve(c, DisableSeatReq) && Sent(t2) && Stays(Take(s, t1), turns, m)
    requires forall k :: 0 <= k < |turns| ==> Sent(turns[k]) && OfAnother(turns[k], c)
    ensures Has(Take(Run(Take(s, t1), turns), t2), m, n)
  {
    hide Ready, Take, Handle, Queued, Run, Stays, Has;
    ServeOutcome(s, t1);
    SwitchQueues(s, t1.io, c, m, n);
    QueueWaitsOn(Take(s, t1), turns, c, m, n);
    QueueIsServed(Run(Take(s, t1), turns), t2, c, m, n);
  }

  predicate Nobody(s: Seat, n: int) {
    forall d :: d in s.order ==> d in s.clients && s.clients[d].session != n
  }

  lemma NobodyAfterDrop(s: Seat, t: Turn, n: int)
    requires Inv(s) && Nobody(s, n) && t.step.Disconnect?
    ensures Nobody(Take(s, t), n)
  {
    hide Ready, Take, Removed;
    var c := t.step.c;
    var w := DisconnectOutcome(s, t);
    if c in s.order {
      MemberIs(s, c);
      NobodyAfterRemoval(s, w, c, n, t.io2);
    } else if c in s.clients {
      assert Take(s, t).order == s.order;
    }
  }

  lemma NobodyAfterRemoval(s: Seat, w: Seat, c: ClientId, n: int, io: Io)
    requires Inv(s) && c in s.order && Nobody(s, n) && Removed(s, w, c, io)
    ensures Nobody(w, n) && c !in w.order
  {
    hide Ready, ClosesAll, ClosesVts, Strikes, Given, Drops;
    var u, v := RemovedIs(s, w, c, io);
    RosterIs(s);
    GoneFrom(s.order, u.order, c);
    NoneAppears(s.order, u.order, c);
    SameSessions(u, v, io);
  }

  lemma NoneAppears(order: seq<ClientId>, r: seq<ClientId>, c: ClientId)
    requires Drops(order, r, c)
    ensures forall d :: d in r ==> d in order
  {
  }

  lemma SameSessions(s: Seat, r: Seat, io: Io)
    requires r == s || Given(s, r, io)
    ensures r.order == s.order
    ensures forall d :: d in s.clients ==> d in r.clients && r.clients[d].session == s.clients[d].session
  {
  }

  // The session of the active client.
  predicate InSession(s: Seat, n: int) {
    s.active.Some? && s.active.value in s.clients && s.clients[s.active.value].session == n
  }

  // Two turns in a row: the session that was asked for has the seat if and only if there is one.
  lemma SwitchIsHonoured(s: Seat, c: ClientId, n: int, t1: Turn, t2: Turn)
    requires Inv(s) && !s.vtBound && s.active == Some(c) && c in s.clients && s.clients[c].state == Active
    requires s.clients[c].session != n && Sent(t1) && Sent(t2)
    requires t1.step == Serve(c, SwitchSessionReq(n)) && t2.step == Serve(c, DisableSeatReq)
    ensures InSession(Take(Take(s, t1), t2), n) <==> exists m :: Member(s, m) && s.clients[m].session == n
  {
    hide Ready, Take, Handle, Queued, Nobody, Says;
    IsLinked(s);
    if m :| Member(s, m) && s.clients[m].session == n {
      HonouredFor(s, c, m, n, t1, t2);
    } else {
      NobodyIs(s, n);
      NobodyTurn(s, c, n, t1);
      NobodyTurn(Take(s, t1), c, n, t2);
      NobodyIn(Take(Take(s, t1), t2), n);
    }
  }

  lemma HonouredFor(s: Seat, c: ClientId, m: ClientId, n: int, t1: Turn, t2: Turn)
    requires Inv(s) && !s.vtBound && s.active == Some(c) && c in s.clients && s.clients[c].state == Active
    requires s.clients[c].session != n && Sent(t1) && Sent(t2) && Member(s, m) && s.clients[m].session == n
    requires t1.step == Serve(c, SwitchSessionReq(n)) && t2.step == Serve(c, DisableSeatReq)
    ensures Has(Take(Take(s, t1), t2), m, n)
  {
    hide Ready, Take, Handle, Queued, Has;
    IsLinked(s);
    var h, s1 := Handle(s, c, SwitchSessionReq(n), t1.io), Take(s, t1);
    ServeOutcome(s, t1);
    SwitchQueues(s, t1.io, c, m, n);
    if h.ok && t1.io.flush {
      QueueIsServed(s1, t2, c, m, n);
    } else {
      var drop := t1.(step := Disconnect(c));
      DropAndQueue(h.s, drop, c, m, n);
      var w := DisconnectOutcome(h.s, drop);
      ServeOutcome(s1, t2);
    }
  }

  lemma NobodyIs(s: Seat, n: int)
    requires Inv(s) && forall m :: Member(s, m) ==> s.clients[m].session != n
    ensures Nobody(s, n)
  {
    hide Ready;
    forall d | d in s.order ensures d in s.clients && s.clients[d].session != n { MemberIs(s, d); }
  }

  lemma NobodyIn(s: Seat, n: int)
    requires Inv(s) && Nobody(s, n)
    ensures !InSession(s, n)
  {
    IsLinked(s);
  }

  // Neither of the two requests makes a difference when there is no such session.
  lemma NobodyTurn(s: Seat, c: ClientId, n: int, t: Turn)
    requires Inv(s) && !s.vtBound && Nobody(s, n)
    requires c in s.clients ==> s.active == Some(c) && s.clients[c].state == Active
    requires t.step == Serve(c, SwitchSessionReq(n)) || t.step == Serve(c, DisableSeatReq)
    ensures var r := Take(s, t); !r.vtBound && Nobody(r, n)
    ensures var r := Take(s, t); c in r.clients ==> r.active == Some(c) && r.clients[c].state == Active
  {
    hide Ready, Take, Handle;
    IsLinked(s);
    ServeOutcome(s, t);
    U.StaysUnbound(s, t);
    if c in s.clients {
      var h, drop := Handle(s, c, t.step.req, t.io), t.(step := Disconnect(c));
      if t.step.req.DisableSeatReq? {
        var u := AckOutcome(s, c, t.io);
      } else {
        var u := SwitchWithoutVts(s, c, n, t.io);
      }
      assert Says(s, h, c, Error, t.io);
      NobodyAfterDrop(h.s, drop, n);
      var w := DisconnectOutcome(h.s, drop);
    }
  }
}
