// VT switches, from the request that names a VT to the one the kernel is asked for.
module VtTurns {
  import opened Options
  import opened SeatSpec
  import opened SeatInvariant
  import opened SeatMoves
  import opened SeatRuns
  import opened SeatOutcomes

  // A client on a VT-bound seat asks for a VT: the kernel is asked for that one, exactly if it is not
  // current, no switch is pending and the kernel agrees.
  lemma SwitchAsksFor(s: Seat, t: Turn, c: ClientId, n: int)
    requires Inv(s) && s.vtBound && Member(s, c) && s.clients[c].state == Active && n > 0
    requires t.step == Serve(c, SwitchSessionReq(n)) && t.io.put && t.io.flush
    ensures var asks := s.curVt != n && s.pendingVt == 0 && t.io.vtSwitch;
            Take(s, t) == s.(
              pendingVt := if asks then n else s.pendingVt,
              log := s.log + (if asks then [VtActivated(n)] else [])
                     + [Replied(c, if asks || s.curVt == n then SessionSwitched else Error)])
  {
    hide Inv, Take, Handle;
    ServeOutcome(s, t);
    SwitchOnVts(s, c, n, t.io);
    assert s.log + [] == s.log;
  }

  // So does the control socket.
  lemma ControlAsksFor(s: Seat, t: Turn, n: int)
    requires Inv(s) && s.vtBound && t.step == ControlSwitch(n) && n > 0 && t.io.vt > 0
    ensures var asks := t.io.vt != n && s.pendingVt == 0 && t.io.vtSwitch;
            Take(s, t) == s.(
              curVt := t.io.vt, pendingVt := if asks then n else s.pendingVt,
              log := s.log + if asks then [VtActivated(n)] else [])
  {
    hide Inv, Take;
    ControlSwitchOutcome(s, t);
    assert s.log + [] == s.log;
  }

  // ---------------------------------------------------------------- nobody else does

  // The log only grew, and no VT was asked for.
  predicate Calm(s: Seat, r: Seat) {
    |s.log| <= |r.log| && r.log[..|s.log|] == s.log && forall j :: |s.log| <= j < |r.log| ==> !r.log[j].VtActivated?
  }

  lemma CalmMore(s: Seat, r: Seat, es: seq<Effect>)
    requires r.log == s.log + es && forall j :: 0 <= j < |es| ==> !es[j].VtActivated?
    ensures Calm(s, r)
  {
  }

  lemma CalmOn(s: Seat, u: Seat, r: Seat)
    requires Calm(s, u) && Calm(u, r)
    ensures Calm(s, r)
  {
    assert r.log[..|s.log|] == u.log[..|s.log|];
  }

  lemma SaysIsCalm(s: Seat, u: Seat, h: Done, c: ClientId, reply: Reply, io: Io)
    requires Calm(s, u) && Says(u, h, c, reply, io)
    ensures Calm(s, h.s)
  {
    CalmMore(u, h.s, if io.put then [Replied(c, reply)] else []);
    CalmOn(s, u, h.s);
  }

  lemma OfferIs(s: Seat, r: Seat, a: ClientId, io: Io)
    requires Offered(s, r, a, io)
    ensures s.vtBound && !io.vtOpen ==> r == s
    ensures !(s.vtBound && !io.vtOpen) ==> a in s.clients
  {
    hide AllResumed, Returned;
  }

  lemma OfferIsCalm(s: Seat, r: Seat, a: ClientId, io: Io)
    requires Offered(s, r, a, io)
    ensures Calm(s, r)
  {
    hide AllResumed, Returned, VtOf, OnlyClient;
    OfferIs(s, r, a, io);
    if !(s.vtBound && !io.vtOpen) {
      var vt := VtOf(s, a);
      var es := On(s.vtBound, VtOpened(vt)) +
        if io.send.Delivered? then [EnableSent(a)]
        else (if io.send.Left? then [EnableLeft(a)] else []) + On(s.vtBound, VtClosed(vt));
      assert r.log == s.log + es;
    }
  }

  lemma GivenIsCalm(s: Seat, r: Seat, io: Io)
    requires Given(s, r, io)
    ensures Calm(s, r)
  {
    hide Chosen, Offered;
    if r != s || !forall a: ClientId :: !Chosen(s, a) {
      var a: ClientId :| Chosen(s, a) && Offered(s.(next := None), r, a, io);
      OfferIsCalm(s.(next := None), r, a, io);
    }
  }

  lemma OffIsCalm(s: Seat, u: Seat, c: ClientId)
    requires Off(s, u, c)
    ensures Calm(s, u)
  {
    var es, vs: seq<Effect> :|
      ClosesAll(es, c, s.clients[c].devices) && ClosesVts(vs, c, s.groups) && u.log == s.log + es + vs;
    assert u.log == s.log + (es + vs);
    CalmMore(s, u, es + vs);
  }

  lemma RemovedIsCalm(s: Seat, r: Seat, c: ClientId, io: Io)
    requires Removed(s, r, c, io)
    ensures Calm(s, r)
  {
    hide Off, Given;
    var u, v := RemovedIs(s, r, c, io);
    OffIsCalm(s, u, c);
    if s.active == Some(c) { GivenIsCalm(u, v, io); }
    CalmMore(v, r, On(s.vtBound && (s.active == Some(c) ==> v.active.None?), VtClosed(s.clients[c].session)));
    CalmOn(s, u, v);
    CalmOn(s, v, r);
  }

  lemma DropIsCalm(s: Seat, t: Turn)
    requires Inv(s) && t.step.Disconnect?
    ensures Calm(s, Take(s, t))
  {
    hide Inv, Take, Removed, Calm;
    var r := DisconnectOutcome(s, t);
    SameIsCalm(s);
    if t.step.c in s.clients {
      if t.step.c in s.order { RemovedIsCalm(s, r, t.step.c, t.io2); }
      CalmMore(r, Take(s, t), [Gone(t.step.c)]);
      CalmOn(s, r, Take(s, t));
    }
  }

  lemma SameIsCalm(s: Seat)
    ensures Calm(s, s)
  {
  }

  // A turn that names this VT.
  predicate Names(t: Turn, n: int) {
    t.step == ControlSwitch(n) || (t.step.Serve? && t.step.req == SwitchSessionReq(n))
  }

  // Every new entry about a switch is for a VT that the turn names.
  predicate AsksWhatItNames(s: Seat, r: Seat, t: Turn) {
    && |s.log| <= |r.log| && r.log[..|s.log|] == s.log
    && forall j :: |s.log| <= j < |r.log| && r.log[j].VtActivated? ==> Names(t, r.log[j].vt)
  }

  lemma CalmAsks(s: Seat, u: Seat, r: Seat, t: Turn)
    requires AsksWhatItNames(s, u, t) && Calm(u, r)
    ensures AsksWhatItNames(s, r, t)
  {
    assert r.log[..|s.log|] == u.log[..|s.log|];
    forall j | |s.log| <= j < |r.log| && r.log[j].VtActivated? ensures Names(t, r.log[j].vt) {
      assert r.log[..|u.log|][j] == u.log[j];
    }
  }

  lemma HandleAsks(s: Seat, t: Turn)
    requires Inv(s) && t.step.Serve? && t.step.c in s.clients
    ensures Linked(s) && AsksWhatItNames(s, Handle(s, t.step.c, t.step.req, t.io).s, t)
  {
    hide Inv, Handle, Given, Removed, Offered, OneMore, OneLess, Says, Calm;
    var c, req, io := t.step.c, t.step.req, t.io;
    StrangerOutcome(s, c, req, io);
    var h := Handle(s, c, req, io);
    SameIsCalm(s);
    CalmAsks(s, s, s, t);
    if req == PingReq {
      SaysIsCalm(s, s, h, c, Pong, io);
    } else if req == OpenSeatReq {
      JoinIsCalm(s, c, io);
    } else if c in s.order {
      MemberAsks(s, t);
    }
    if req == PingReq || req == OpenSeatReq { CalmAsks(s, s, h.s, t); }
  }

  lemma JoinIsCalm(s: Seat, c: ClientId, io: Io)
    requires Inv(s) && c in s.clients
    ensures Linked(s) && Calm(s, Handle(s, c, OpenSeatReq, io).s)
  {
    hide Inv, Handle, Offered, HasRoom, SessionFor;
    var n, r := JoinOutcome(s, c, io);
    var w := LookedUp(s, io);
    if MayJoin(s, c) && HasRoom(w) && io.put {
      var v := Joined(w, c, n);
      var u := v.(log := v.log + [Replied(c, SeatOpened)]);
      if s.active.None? { OfferIsCalm(u, r, c, io); }
      CalmMore(s, u, [Replied(c, SeatOpened)]);
      CalmOn(s, u, r);
    }
  }

  lemma MemberAsks(s: Seat, t: Turn)
    requires Inv(s) && t.step.Serve? && t.step.c in s.order && t.step.req != PingReq && t.step.req != OpenSeatReq
    requires AsksWhatItNames(s, s, t)
    ensures Linked(s) && t.step.c in s.clients && AsksWhatItNames(s, Handle(s, t.step.c, t.step.req, t.io).s, t)
  {
    hide Inv, Handle, Given, Removed, AsksWhatItNames, Calm;
    var c, req, io := t.step.c, t.step.req, t.io;
    SameIsCalm(s);
    match req
    case CloseSeatReq =>
      var r := CloseSeatOutcome(s, c, io);
      RemovedIsCalm(s, r, c, io);
      SaysIsCalm(s, r, Handle(s, c, req, io), c, SeatClosed, io);
      CalmAsks(s, s, Handle(s, c, req, io).s, t);
    case OpenDeviceReq =>
      DevicesAreCalm(s, c, req, io);
      CalmAsks(s, s, Handle(s, c, req, io).s, t);
    case CloseDeviceReq(_) =>
      DevicesAreCalm(s, c, req, io);
      CalmAsks(s, s, Handle(s, c, req, io).s, t);
    case DisableSeatReq =>
      AckIsCalm(s, c, io);
      CalmAsks(s, s, Handle(s, c, req, io).s, t);
    case SwitchSessionReq(n) =>
      if s.vtBound {
        SwitchNames(s, t, n);
      } else {
        QueueIsCalm(s, c, n, io);
        CalmAsks(s, s, Handle(s, c, req, io).s, t);
      }
    case PingReq =>
    case OpenSeatReq =>
  }

  lemma AckIsCalm(s: Seat, c: ClientId, io: Io)
    requires Inv(s) && c in s.order
    ensures Linked(s) && c in s.clients && Calm(s, Handle(s, c, DisableSeatReq, io).s)
  {
    hide Inv, Handle, Given, Calm;
    var u := AckOutcome(s, c, io);
    var h := Handle(s, c, DisableSeatReq, io);
    SameIsCalm(s);
    if s.clients[c].state != PendingDisable {
      SaysIsCalm(s, s, h, c, Error, io);
    } else {
      var v := s.(active := None, clients := s.clients[c := s.clients[c].(state := Disabled)],
                  log := s.log + [DisableAcked(c)]);
      CalmMore(s, v, [DisableAcked(c)]);
      GivenIsCalm(v, u, io);
      CalmOn(s, v, u);
      SaysIsCalm(s, u, h, c, SeatDisabled, io);
    }
  }

  lemma DevicesAreCalm(s: Seat, c: ClientId, req: Request, io: Io)
    requires Inv(s) && c in s.order && (req.OpenDeviceReq? || req.CloseDeviceReq?)
    ensures Linked(s) && c in s.clients && Calm(s, Handle(s, c, req, io).s)
  {
    hide Ready, Handle, Calm;
    IsLinked(s);
    if req.OpenDeviceReq? { OpenIsCalm(s, c, io); } else { CloseIsCalm(s, c, req.id, io); }
  }

  lemma OpenIsCalm(s: Seat, c: ClientId, io: Io)
    requires Inv(s) && c in s.order
    ensures Linked(s) && c in s.clients && Calm(s, Handle(s, c, OpenDeviceReq, io).s)
  {
    hide Inv, Handle, OneMore, MayOpen;
    var ds, id := OpenOutcome(s, c, io);
  }

  lemma CloseIsCalm(s: Seat, c: ClientId, id: int, io: Io)
    requires Inv(s) && c in s.order
    ensures Linked(s) && c in s.clients && Calm(s, Handle(s, c, CloseDeviceReq(id), io).s)
  {
    hide Inv, Handle, OneLess;
    CloseOutcome(s, c, id, io);
    var h, ds := Handle(s, c, CloseDeviceReq(id), io), s.clients[c].devices;
    if i :| 0 <= i < |ds| && ds[i].id == id {
      var r: seq<Device> :|
        && OneLess(ds, r, i) && r == h.s.clients[c].devices
        && Says(WithTable(s, c, r, [ClosedDevice(c, ds[i].path)]), h, c, DeviceClosed, io);
    }
  }

  lemma SwitchNames(s: Seat, t: Turn, n: int)
    requires Inv(s) && t.step.Serve? && t.step.c in s.order && s.vtBound && t.step.req == SwitchSessionReq(n)
    ensures Linked(s) && t.step.c in s.clients && AsksWhatItNames(s, Handle(s, t.step.c, t.step.req, t.io).s, t)
  {
    hide Inv, Handle;
    SwitchOnVts(s, t.step.c, n, t.io);
  }

  lemma QueueIsCalm(s: Seat, c: ClientId, n: int, io: Io)
    requires Inv(s) && c in s.order && !s.vtBound
    ensures Linked(s) && c in s.clients && Calm(s, Handle(s, c, SwitchSessionReq(n), io).s)
  {
    hide Inv, Handle, AllRevoked;
    var u := SwitchWithoutVts(s, c, n, io);
  }

  // Whatever a turn is, and whatever the kernel and the sockets answer: it asks for no VT but one that
  // it names.
  lemma TurnAsks(s: Seat, t: Turn)
    requires Inv(s)
    ensures AsksWhatItNames(s, Take(s, t), t)
  {
    hide Inv, Take, Handle, Given, Suspended, AsksWhatItNames, Calm;
    SameIsCalm(s);
    Nothing(s, t);
    match t.step
    case Serve(c, req) =>
      ServeOutcome(s, t);
      if c in s.clients {
        HandleAsks(s, t);
        var h := Handle(s, c, req, t.io);
        DropIsCalm(h.s, t.(step := Disconnect(c)));
        CalmAsks(s, h.s, Take(h.s, t.(step := Disconnect(c))), t);
      }
    case Disconnect(_) =>
      DropIsCalm(s, t);
      CalmAsks(s, s, Take(s, t), t);
    case Event(_, _) =>
      EventIsCalm(s, t);
      CalmAsks(s, s, Take(s, t), t);
    case _ => OtherAsks(s, t);
  }

  lemma Nothing(s: Seat, t: Turn)
    ensures AsksWhatItNames(s, s, t)
  {
  }

  lemma EventIsCalm(s: Seat, t: Turn)
    requires Inv(s) && t.step.Event?
    ensures Calm(s, Take(s, t))
  {
    hide Inv, Take, Given, Holds, AllRevoked, AllResumed;
    EventOutcome(s, t);
    var e := VtChanged(t.step.oldVt, t.step.newVt);
    var m := s.(curVt := t.step.newVt, pendingVt := 0, log := s.log + [e]);
    CalmMore(s, m, [e]);
    if s.active.None? { GivenIsCalm(m, Take(s, t), t.io); }
    assert Calm(m, Take(s, t));
    CalmOn(s, m, Take(s, t));
  }

  lemma OtherAsks(s: Seat, t: Turn)
    requires Inv(s) && !t.step.Serve? && !t.step.Disconnect? && !t.step.Event?
    ensures AsksWhatItNames(s, Take(s, t), t)
  {
    hide Inv, Take, Holds, MasterDropped;
    match t.step
    case Connect(_) => ConnectOutcome(s, t);
    case ControlCreate(_, _) => var o := GroupOutcome(s, t);
    case ControlDestroy(_) => UngroupOutcome(s, t);
    case ControlActiveVt => AcquireOutcome(s, t);
    case ControlSwitch(_) => ControlSwitchOutcome(s, t);
    case SignalRelease => ReleaseOutcome(s, t);
    case SignalAcquire => AcquireOutcome(s, t);
  }

  lemma OldOrNamed(s: Seat, r: Seat, t: Turn, i: nat)
    requires AsksWhatItNames(s, r, t) && i < |r.log|
    ensures if i < |s.log| then r.log[i] == s.log[i] else r.log[i].VtActivated? ==> Names(t, r.log[i].vt)
  {
    if i < |s.log| { assert r.log[..|s.log|][i] == s.log[i]; }
  }

  lemma StartsWell(vtBound: bool)
    ensures Inv(Init(vtBound)) && Init(vtBound).log == []
  {
  }

  // Over every run: the kernel was never asked for a VT that nobody named.
  lemma {:induction false} EverySwitchWasAskedFor(vtBound: bool, turns: seq<Turn>, i: nat)
    requires i < |Run(Init(vtBound), turns).log| && Run(Init(vtBound), turns).log[i].VtActivated?
    ensures exists k :: 0 <= k < |turns| && Names(turns[k], Run(Init(vtBound), turns).log[i].vt)
  {
    hide Take, Names, AsksWhatItNames, Inv;
    StartsWell(vtBound);
    var n := |turns| - 1;
    var s, r := Run(Init(vtBound), turns[..n]), Run(Init(vtBound), turns);
    TurnAsks(s, turns[n]);
    OldOrNamed(s, r, turns[n], i);
    if i < |s.log| {
      EverySwitchWasAskedFor(vtBound, turns[..n], i);
      var k :| 0 <= k < n && Names(turns[..n][k], s.log[i].vt);
      assert Names(turns[k], r.log[i].vt);
    }
  }
}
