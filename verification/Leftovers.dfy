// Event messages whose send failed after they were put on the ring: they are delivered all the
// same, although the daemon goes on as if they were not.
module Leftovers {
  import opened SeatSpec
  import opened SeatInvariant
  import opened SeatMoves
  import opened SeatRuns
  import opened Protocol
  import opened Letters
  import opened Mailing

  // The events the daemon takes for sent, oldest first.
  function SentIn(e: Effect, c: ClientId): seq<u16> {
    if e == EnableSent(c) then [EventOf(true)] else if e == DisableSent(c) then [EventOf(false)] else []
  }

  function AllSent(log: seq<Effect>, c: ClientId): seq<u16> {
    if log == [] then [] else AllSent(log[..|log| - 1], c) + SentIn(log[|log| - 1], c)
  }

  // How many were left on the ring of a client.
  function LeftIn(e: Effect, c: ClientId): nat {
    if e == EnableLeft(c) || e == DisableLeft(c) then 1 else 0
  }

  function LeftCount(log: seq<Effect>, c: ClientId): nat {
    if log == [] then 0 else LeftCount(log[..|log| - 1], c) + LeftIn(log[|log| - 1], c)
  }

  lemma {:induction false} ToldCount(log: seq<Effect>, c: ClientId)
    ensures |AllTold(log, c)| == |AllSent(log, c)| + LeftCount(log, c)
  {
    if log != [] { ToldCount(log[..|log| - 1], c); }
  }

  lemma {:induction false} ToldWithoutLeft(log: seq<Effect>, c: ClientId)
    requires LeftCount(log, c) == 0
    ensures AllTold(log, c) == AllSent(log, c)
  {
    if log != [] { ToldWithoutLeft(log[..|log| - 1], c); }
  }

  // What reaches a client is what the daemon takes for sent to it if and only if no message was
  // left on its ring.
  lemma ToldIsSent(log: seq<Effect>, c: ClientId)
    ensures AllTold(log, c) == AllSent(log, c) <==> LeftCount(log, c) == 0
  {
    ToldCount(log, c);
    if LeftCount(log, c) == 0 { ToldWithoutLeft(log, c); }
  }

  lemma LeftEmit(log: seq<Effect>, e: Effect, c: ClientId)
    ensures LeftCount(log + [e], c) == LeftCount(log, c) + LeftIn(e, c)
  {
    assert (log + [e])[..|log|] == log;
  }

  lemma TidyMove(s: Seat, m: Move, c: ClientId)
    requires Legal(s, m) && LeavesNothing(m)
    ensures LeftCount(Do(s, m).log, c) == LeftCount(s.log, c)
  {
    LogAfter(s, m);
    var es := Emitted(s, m);
    if es == [] { assert s.log + es == s.log; } else { LeftEmit(s.log, es[0], c); }
  }

  // So it is after every run in which no failed send left its message behind.
  lemma TidyRunsTellAll(vtBound: bool, turns: seq<Turn>, c: ClientId)
    requires NothingLeft(turns)
    ensures var log := Run(Init(vtBound), turns).log; AllTold(log, c) == AllSent(log, c)
  {
    var P := (s: Seat) => LeftCount(s.log, c) == 0;
    forall s, m | Ready(s) && P(s) && LeavesNothing(m) && Legal(s, m) ensures P(Do(s, m)) { TidyMove(s, m, c); }
    TidyRunKeeps(P, Init(vtBound), turns);
    ToldIsSent(Run(Init(vtBound), turns).log, c);
  }

  // A client opens an idle seat, and the enable message stays on its ring.
  lemma OpenedInVain(s: Seat, c: ClientId, io: Io, io2: Io)
    requires Inv(s) && !s.vtBound && s.order == [] && c in s.clients && s.clients[c].session == -1
    requires io.put && io.flush && io.send == Left
    ensures var r := Take(s, Turn(Serve(c, OpenSeatReq), io, io2));
            && c in r.clients && r.clients[c].seated && r.clients[c].state == New && r.active.None?
            && r.log == s.log + [Replied(c, SeatOpened)] + [EnableLeft(c)]
  {
  }

  // Then it is told to use a seat that it does not have: the run that starts with its connection.
  lemma ToldWithoutSeat(pid: int, io: Io, io2: Io) returns (turns: seq<Turn>, c: ClientId)
    requires io.put && io.flush && io.send == Left
    ensures var s := Run(Init(false), turns);
            c in s.clients && s.clients[c].state != Active && s.active.None? && AllTold(s.log, c) == [EventOf(true)]
  {
    hide Handle;
    var t := Turn(Connect(pid), io, io2);
    var s := Take(Init(false), t);
    c := 0;
    turns := [t, Turn(Serve(c, OpenSeatReq), io, io2)];
    OneTurn(Init(false), t);
    assert turns[..1] == [t];
    OpenedInVain(s, c, io, io2);
    ToldMore(s.log, Replied(c, SeatOpened), c);
    ToldMore(s.log + [Replied(c, SeatOpened)], EnableLeft(c), c);
  }

  lemma OneTurn(s: Seat, t: Turn)
    requires Inv(s)
    ensures Run(s, [t]) == Take(s, t)
  {
    assert [t][..0] == [];
  }
}
