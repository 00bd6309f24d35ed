// The order in which a client sees enable and disable: (ENABLE, DISABLE, ACK) over and over.
module SeatCycle {
  import opened SeatSpec
  import opened SeatInvariant
  import opened SeatMoves
  import opened SeatRuns

  datatype Phase = Enabled | ToldToDisable | Acked

  function Mark(e: Effect, c: ClientId): seq<Phase> {
    if e == EnableSent(c) then [Enabled]
    else if e == DisableSent(c) then [ToldToDisable]
    else if e == DisableAcked(c) then [Acked]
    else []
  }

  // What one client went through, oldest first.
  function Cycle(log: seq<Effect>, c: ClientId): seq<Phase> {
    if log == [] then [] else Cycle(log[..|log| - 1], c) + Mark(log[|log| - 1], c)
  }

  predicate InTurn(h: seq<Phase>) {
    forall i :: 0 <= i < |h| ==> h[i] == if i % 3 == 0 then Enabled else if i % 3 == 1 then ToldToDisable else Acked
  }

  function PhaseOf(state: ClientState): nat {
    match state case Active => 1 case PendingDisable => 2 case _ => 0
  }

  ghost predicate Fits(s: Seat, c: ClientId) {
    var h := Cycle(s.log, c);
    && InTurn(h)
    && (c >= s.nextId ==> h == [])
    && (c in s.clients ==>
          if s.clients[c].seated then |h| % 3 == PhaseOf(s.clients[c].state)
          else s.clients[c].state == New ==> h == [])
  }

  lemma CycleEmit(log: seq<Effect>, e: Effect, c: ClientId)
    ensures Cycle(log + [e], c) == Cycle(log, c) + Mark(e, c)
  {
    assert (log + [e])[..|log|] == log;
  }

  // Only the client that is enabled, disabled or acked gets a new entry.
  lemma CycleMove(s: Seat, m: Move, c: ClientId)
    requires Legal(s, m)
    ensures Cycle(Do(s, m).log, c) == Cycle(s.log, c) +
              (if m == Enable(c) then [Enabled]
               else if m.Disable? && m.c == c && m.sent.Delivered? then [ToldToDisable]
               else if m == Ack(c) then [Acked]
               else [])
  {
    hide Cycle, Do;
    LogAfter(s, m);
    var es := Emitted(s, m);
    if es == [] { assert s.log + es == s.log; } else { CycleEmit(s.log, es[0], c); }
  }

  // A history goes on in turn.
  lemma InTurnMore(h: seq<Phase>, p: Phase)
    requires InTurn(h) && p == (if |h| % 3 == 0 then Enabled else if |h| % 3 == 1 then ToldToDisable else Acked)
    ensures InTurn(h + [p]) && |h + [p]| % 3 == (|h| % 3 + 1) % 3
  {
  }

  lemma EnableFits(s: Seat, c: ClientId)
    requires Legal(s, Enable(c)) && Fits(s, c) && c < s.nextId
    ensures Fits(Do(s, Enable(c)), c)
  {
    hide Cycle, InTurn;
    CycleMove(s, Enable(c), c);
    InTurnMore(Cycle(s.log, c), Enabled);
  }

  lemma DisableFits(s: Seat, m: Move)
    requires m.Disable? && m.sent.Delivered? && Legal(s, m) && Fits(s, m.c) && m.c < s.nextId
    ensures Fits(Do(s, m), m.c)
  {
    hide Cycle, InTurn;
    CycleMove(s, m, m.c);
    InTurnMore(Cycle(s.log, m.c), ToldToDisable);
  }

  lemma AckFits(s: Seat, c: ClientId)
    requires Legal(s, Ack(c)) && Fits(s, c) && c < s.nextId
    ensures Fits(Do(s, Ack(c)), c)
  {
    hide Cycle, InTurn;
    CycleMove(s, Ack(c), c);
    InTurnMore(Cycle(s.log, c), Acked);
  }

  lemma StateFits(s: Seat, m: Move)
    requires Legal(s, m) && WasSent(m) && MovesState(m) && Fits(s, m.c) && m.c < s.nextId
    ensures Fits(Do(s, m), m.c)
  {
    hide Legal, Do, Fits;
    match m
    case Enable(c) => EnableFits(s, c);
    case Ack(c) => AckFits(s, c);
    case _ => DisableFits(s, m);
  }

  lemma RosterFits(s: Seat, m: Move, c: ClientId)
    requires c in s.clients ==> c < s.nextId && ClientOk(s.clients[c])
    requires Legal(s, m) && MovesRoster(m) && Fits(s, c)
    ensures Fits(Do(s, m), c)
  {
    hide Cycle, InTurn, SessionSet, Without, GroupsNotOf, DevicesOk;
    CycleMove(s, m, c);
    assert Cycle(s.log, c) + [] == Cycle(s.log, c);
  }

  lemma FitsMove(s: Seat, m: Move, c: ClientId)
    requires c in s.clients ==> c < s.nextId && ClientOk(s.clients[c])
    requires Legal(s, m) && WasSent(m) && Fits(s, c)
    ensures Fits(Do(s, m), c)
  {
    if MovesRoster(m) {
      RosterFits(s, m, c);
    } else if MovesState(m) && m.c == c {
      StateFits(s, m);
    } else {
      CycleMove(s, m, c);
      if Concerns(s, m, c) { StateStays(s, m, c); } else { OthersStay(s, m, c); }
    }
  }

  // Over every run whose event sends succeed, each client's history is a prefix of
  // (ENABLE, DISABLE, ACK) repeated, and where it stands is where its state says.
  lemma EveryClientTakesTurns(vtBound: bool, turns: seq<Turn>, c: ClientId)
    requires SendsSucceed(turns)
    ensures var s := Run(Init(vtBound), turns);
            && InTurn(Cycle(s.log, c))
            && (c in s.clients && s.clients[c].seated ==> |Cycle(s.log, c)| % 3 == PhaseOf(s.clients[c].state))
  {
    var P := (s: Seat) => Fits(s, c);
    forall s, m | Ready(s) && P(s) && WasSent(m) && Legal(s, m) ensures P(Do(s, m)) { FitsMove(s, m, c); }
    SentRunKeeps(P, Init(vtBound), turns);
  }

  // A client that has left the seat, or the daemon.
  predicate HasLeft(s: Seat, c: ClientId) {
    c < s.nextId && (c in s.clients ==> !s.clients[c].seated && s.clients[c].session != -1)
  }

  lemma LeftMove(s: Seat, m: Move, c: ClientId)
    requires Legal(s, m) && HasLeft(s, c) && (m.Arrive? ==> s.nextId !in s.clients)
    ensures HasLeft(Do(s, m), c) && Cycle(Do(s, m).log, c) == Cycle(s.log, c)
  {
    CycleMove(s, m, c);
    if !Concerns(s, m, c) { OthersStay(s, m, c); }
  }

  // Whatever happens afterwards, failed sends included, its history does not change any more.
  lemma HistoryIsFrozen(s: Seat, turns: seq<Turn>, c: ClientId)
    requires Inv(s) && HasLeft(s, c)
    ensures HasLeft(Run(s, turns), c) && Cycle(Run(s, turns).log, c) == Cycle(s.log, c)
  {
    var h := Cycle(s.log, c);
    var P := (t: Seat) => HasLeft(t, c) && Cycle(t.log, c) == h;
    forall t, m | Ready(t) && P(t) && Legal(t, m) ensures P(Do(t, m)) { LeftMove(t, m, c); }
    RunKeeps(P, s, turns);
  }
}
