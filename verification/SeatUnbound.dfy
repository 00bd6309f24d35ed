// Seats without VTs: sessions are switched by the daemon alone.
module SeatUnbound {
  import opened Options
  import opened SeatSpec
  import opened SeatInvariant
  import opened SeatMoves
  import opened SeatRuns

  // ---------------------------------------------------------------- a seat in use has an active client

  ghost predicate InUse(s: Seat) {
    s.order != [] ==> s.active.Some?
  }

  lemma ActivateInUse(s: Seat, io: Io)
    requires Ready(s) && !s.vtBound && io.send.Delivered?
    ensures InUse(Activate(s, io)) && !Activate(s, io).vtBound
  {
    if s.active.None? && s.order != [] {
      var c := Candidate(s).value;
      assert c in s.order;
    }
  }

  lemma RemoveInUse(s: Seat, c: ClientId, io: Io)
    requires Inv(s) && !s.vtBound && c in s.order && io.send.Delivered?
    requires InUse(s) || Without(s.order, c) == []
    ensures InUse(RemoveClient(s, c, io))
  {
    DetachKeeps(s, c);
    ActivateInUse(Detach(s, c), io);
    ActivateFrame(Detach(s, c), io);
  }

  lemma DestroyInUse(s: Seat, c: ClientId, io: Io)
    requires Inv(s) && !s.vtBound && c in s.clients && io.send.Delivered?
    requires InUse(s) || (c in s.order && Without(s.order, c) == [])
    ensures InUse(Destroy(s, c, io))
  {
    if c in s.order { RemoveInUse(s, c, io); }
  }

  lemma AckInUse(s: Seat, c: ClientId, io: Io)
    requires Inv(s) && !s.vtBound && c in s.order && InUse(s) && io.send.Delivered?
    ensures InUse(AckDisable(s, c, io).s)
  {
    if s.clients[c].state == PendingDisable {
      AckIs(s, c, io);
      ActivateInUse(Do(s, Ack(c)), io);
    }
  }

  lemma {:induction false} WithoutAbsent(order: seq<ClientId>, c: ClientId)
    requires c !in order
    ensures Without(order, c) == order
  {
    if order != [] { WithoutAbsent(order[1..], c); }
  }

  // Opening the seat: the newcomer is activated if nobody is, unless its answer cannot be queued,
  // in which case it is the only member and about to be removed.
  lemma OpenSeatInUse(s: Seat, c: ClientId, io: Io)
    requires Inv(s) && !s.vtBound && c in s.clients && InUse(s) && io.send.Delivered?
    ensures var h := HandleOpenSeat(s, c, io);
            if h.ok then InUse(h.s) else InUse(h.s) || (c in h.s.order && Without(h.s.order, c) == [])
  {
    AddClientKeeps(s, c, io);
    var added := AddClient(s, c, io);
    if added.ok {
      WithoutAbsent(s.order, c);
      assert added.s.order[1..] == s.order;
    }
  }

  lemma SwitchInUse(s: Seat, c: ClientId, session: int, io: Io)
    requires Inv(s) && c in s.order && InUse(s)
    ensures InUse(SetNextSession(s, c, session, io).s)
  {
  }

  lemma HandleInUse(s: Seat, c: ClientId, req: Request, io: Io)
    requires Inv(s) && !s.vtBound && c in s.clients && InUse(s) && io.send.Delivered?
    ensures var h := Handle(s, c, req, io);
            if h.ok then InUse(h.s) else InUse(h.s) || (c in h.s.order && Without(h.s.order, c) == [])
  {
    if req == OpenSeatReq {
      OpenSeatInUse(s, c, io);
    } else if s.clients[c].seated {
      match req
      case CloseSeatReq => RemoveInUse(s, c, io);
      case DisableSeatReq => AckInUse(s, c, io);
      case SwitchSessionReq(session) => SwitchInUse(s, c, session, io);
      case OpenSeatReq =>
      case PingReq =>
      case OpenDeviceReq =>
      case CloseDeviceReq(id) =>
    }
  }

  lemma UnboundTurn(s: Seat, t: Turn)
    requires Inv(s) && !s.vtBound && InUse(s) && t.io.send.Delivered? && t.io2.send.Delivered?
    ensures InUse(Take(s, t)) && !Take(s, t).vtBound
  {
    StaysUnbound(s, t);
    match t.step
    case Serve(c, req) =>
      if c in s.clients {
        HandleKeeps(s, c, req, t.io);
        HandleInUse(s, c, req, t.io);
        var h := Handle(s, c, req, t.io);
        HandleUnbound(s, c, req, t.io);
        DestroyInUse(h.s, c, t.io2);
      }
    case Disconnect(c) => if c in s.clients { DestroyInUse(s, c, t.io2); }
    case Event(oldVt, newVt) =>
    case _ =>
  }

  lemma StaysUnbound(s: Seat, t: Turn)
    requires Inv(s) && !s.vtBound
    ensures !Take(s, t).vtBound
  {
    hide Take, Inv, Legal, Do;
    forall x, m | Ready(x) && !x.vtBound && Legal(x, m) ensures !Do(x, m).vtBound { UnboundMove(x, m); }
    TurnKeeps((x: Seat) => !x.vtBound, m => true, s, t);
  }

  lemma UnboundMove(s: Seat, m: Move)
    requires Legal(s, m)
    ensures Do(s, m).vtBound == s.vtBound
  {
    hide ActivateAll, DeactivateAll, DropDrm, CloseAt, RemoveAt, SessionSet, FreshDeviceId, IndexOfPath, Without,
         GroupsNotOf;
  }

  lemma HandleUnbound(s: Seat, c: ClientId, req: Request, io: Io)
    requires Inv(s) && !s.vtBound && c in s.clients
    ensures !Handle(s, c, req, io).s.vtBound
  {
    hide Handle, Ready, Legal, Do;
    IsLinked(s);
    var P := (x: Seat) => !x.vtBound;
    var Q := (m: Move) => true;
    forall x, m | Ready(x) && P(x) && Q(m) && Legal(x, m) ensures P(Do(x, m)) { UnboundMove(x, m); }
    var ms := HandleMoves(s, c, req, io);
    PathKeeps(P, Q, s, ms, Handle(s, c, req, io).s);
  }

  // Over every run whose enable events are sent, a seat with members has an active client, and its
  // members have distinct positive sessions.
  lemma {:induction false} UnboundSeatIsServed(turns: seq<Turn>)
    requires SendsSucceed(turns)
    ensures var s := Run(Init(false), turns);
            && (s.order != [] ==> s.active.Some?)
            && (forall c :: c in s.order ==> c in s.clients && s.clients[c].session >= 1)
            && (forall c, d :: c in s.order && d in s.order && c != d ==>
                  c in s.clients && d in s.clients && s.clients[c].session != s.clients[d].session)
  {
    RunInUse(turns);
  }

  lemma {:induction false} RunInUse(turns: seq<Turn>)
    requires SendsSucceed(turns)
    ensures InUse(Run(Init(false), turns)) && !Run(Init(false), turns).vtBound
  {
    if turns != [] {
      var n := |turns| - 1;
      RunInUse(turns[..n]);
      UnboundTurn(Run(Init(false), turns[..n]), turns[n]);
    }
  }

  // ---------------------------------------------------------------- VT events reach it all the same

  ghost predicate StatesSame(s: Seat, r: Seat) {
    forall c :: c in s.clients && c in r.clients ==> r.clients[c].state == s.clients[c].state
  }

  // Such a seat is meant to take no notice of VTs, but a VT event does reach it: the active client
  // is told to disable unless its session number happens to be the number of the new VT. The event
  // goes unnoticed exactly when that is so or nobody is ACTIVE, and nobody gets the seat by it.
  lemma VtEventOnUnboundSeat(s: Seat, oldVt: int, newVt: int, io: Io, io2: Io)
    requires Inv(s) && !s.vtBound
    ensures StatesSame(s, Take(s, Turn(Event(oldVt, newVt), io, io2))) <==>
            if s.active.Some?
            then s.clients[s.active.value].state != Active || s.clients[s.active.value].session == newVt
            else s.order == [] || !io.send.Delivered?
  {
    hide StatesSame;
    assert s.groups == [];
    if s.active.Some? { EventForActive(s, oldVt, newVt, io); } else { EventForNobody(s, oldVt, newVt, io); }
  }

  lemma EventForActive(s: Seat, oldVt: int, newVt: int, io: Io)
    requires Inv(s) && !s.vtBound && s.active.Some? && s.groups == []
    ensures StatesSame(s, VtEvent(s, oldVt, newVt, io)) <==>
            s.clients[s.active.value].state != Active || s.clients[s.active.value].session == newVt
  {
    var a := s.active.value;
    assert a in VtEvent(s, oldVt, newVt, io).clients;
  }

  lemma EventForNobody(s: Seat, oldVt: int, newVt: int, io: Io)
    requires Inv(s) && !s.vtBound && s.active.None? && s.groups == []
    ensures StatesSame(s, VtEvent(s, oldVt, newVt, io)) <==> s.order == [] || !io.send.Delivered?
  {
    hide ActivateAll, DeactivateAll;
    var r := VtEvent(s, oldVt, newVt, io);
    if s.order != [] {
      var a := s.order[0];
      assert Candidate(Do(s, VtMoved(oldVt, newVt))) == Some(a);
      assert r.clients[a].state == if io.send.Delivered? then Active else s.clients[a].state;
    }
  }

  // A single client, which has the seat.
  predicate Alone(s: Seat, c: ClientId) {
    && !s.vtBound && s.order == [c] && s.groups == [] && s.active == Some(c) && c in s.clients
    && s.clients[c].seated && s.clients[c].session == 1 && s.clients[c].state == Active
  }

  lemma ConnectsFirst(t: Turn)
    requires t.step.Connect?
    ensures Inv(Init(false))
    ensures var s := Take(Init(false), t);
            !s.vtBound && s.order == [] && s.groups == [] && s.log == [] && 0 in s.clients && s.clients[0].session == -1
  {
  }

  lemma OpensAlone(s: Seat, c: ClientId, t: Turn)
    requires Inv(s) && !s.vtBound && s.order == [] && s.groups == [] && c in s.clients && s.clients[c].session == -1
    requires t.step == Serve(c, OpenSeatReq) && t.io.put && t.io.flush && t.io.send.Delivered?
    ensures Alone(Take(s, t), c) && Take(s, t).log == s.log + [Replied(c, SeatOpened)] + [EnableSent(c)]
  {
    assert SessionSet(s) == {};
  }

  lemma EventDisables(s: Seat, c: ClientId, t: Turn)
    requires Inv(s) && Alone(s, c) && t.step.Event? && t.step.newVt != 1
    ensures var r := Take(s, t);
            && c in r.clients && r.clients[c].seated && r.clients[c].state == PendingDisable
            && r.log == s.log + [VtChanged(t.step.oldVt, t.step.newVt)] +
                 match t.io.send case Delivered => [DisableSent(c)] case Left => [DisableLeft(c)] case Dropped => []
  {
    hide Ready, DeactivateAll;
    IsLinked(s);
  }

  // It happens: the first client to connect opens the seat and has it, until a VT event takes it
  // away, however the message about that fares.
  lemma EventTakesSeat(pid: int, oldVt: int, newVt: int, io: Io, io2: Io, sent: Sending)
    returns (turns: seq<Turn>, event: Turn, c: ClientId)
    requires io.put && io.flush && io.send.Delivered? && newVt != 1
    ensures event == Turn(Event(oldVt, newVt), io.(send := sent), io2)
    ensures var s := Run(Init(false), turns);
            Alone(s, c) && s.log == [Replied(c, SeatOpened), EnableSent(c)]
    ensures var r := Run(Init(false), turns + [event]);
            && c in r.clients && r.clients[c].seated && r.clients[c].state == PendingDisable
            && r.log == [Replied(c, SeatOpened), EnableSent(c)] + [VtChanged(oldVt, newVt)] +
                 match sent case Delivered => [DisableSent(c)] case Left => [DisableLeft(c)] case Dropped => []
  {
    hide Take, Inv, Alone;
    var connect, open := Turn(Connect(pid), io, io2), Turn(Serve(0, OpenSeatReq), io, io2);
    c, turns, event := 0, [connect, open], Turn(Event(oldVt, newVt), io.(send := sent), io2);
    ConnectsFirst(connect);
    var s := Take(Init(false), connect);
    assert turns == [] + [connect] + [open];
    RunMore(Init(false), [], connect);
    RunMore(Init(false), [] + [connect], open);
    OpensAlone(s, c, open);
    EventDisables(Take(s, open), c, event);
    RunMore(Init(false), turns, event);
  }
}
