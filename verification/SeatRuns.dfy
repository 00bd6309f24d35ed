// Whole runs of the daemon: any sequence of requests, signals and events with any outcome of the
// calls that leave the daemon.
module SeatRuns {
  import opened Options
  import opened SeatSpec
  import opened SeatInvariant
  import opened SeatMoves

  datatype Turn = Turn(step: Step, io: Io, io2: Io)

  function Take(s: Seat, t: Turn): (r: Seat)
    requires Inv(s)
    ensures Inv(r)
  {
    Next(s, t.step, t.io, t.io2)
  }

  // The state after a run; the invariant holds in it whatever the run was.
  function Run(s: Seat, turns: seq<Turn>): (r: Seat)
    requires Inv(s)
    ensures Inv(r)
  {
    if turns == [] then s else Take(Run(s, turns[..|turns| - 1]), turns[|turns| - 1])
  }

  lemma RunMore(s: Seat, turns: seq<Turn>, t: Turn)
    requires Inv(s)
    ensures Run(s, turns + [t]) == Take(Run(s, turns), t)
  {
    assert (turns + [t])[..|turns|] == turns;
  }

  // The same written out. So the assertions that whoever is ACTIVE is the active client never fire,
  // and nobody acknowledges a disable without being it.
  lemma EveryRunIsConsistent(vtBound: bool, turns: seq<Turn>)
    ensures var s := Run(Init(vtBound), turns);
            && (forall c :: c in s.order ==> c in s.clients && s.clients[c].state != Closed)
            && (forall c :: c in s.order ==>
                  (s.active == Some(c) <==> s.clients[c].state == Active || s.clients[c].state == PendingDisable))
            && (s.active.Some? ==> s.active.value in s.order)
            && (s.next.Some? ==>
                  && !s.vtBound && s.next.value in s.order && s.active.Some? && s.active != s.next
                  && s.clients[s.active.value].state == PendingDisable)
            && (forall i, j :: 0 <= i < j < |s.groups| ==> s.groups[i].vt != s.groups[j].vt)
            && (forall g :: g in s.groups ==> g.owner in s.order && s.clients[g.owner].session != g.vt)
            && (forall c :: c in s.clients && c !in s.order ==> s.clients[c].devices == [])
  {
    var s := Run(Init(vtBound), turns);
    assert Members(s) && ActiveOk(s) && QueueOk(s) && GroupsOk(s);
  }

  // A property that no legal move of the allowed kind destroys.
  ghost predicate Kept(P: Seat -> bool, Q: Move -> bool) {
    forall s: Seat, m: Move :: Ready(s) && P(s) && Q(m) && Legal(s, m) ==> P(Do(s, m))
  }

  lemma {:induction false} PathKeeps(P: Seat -> bool, Q: Move -> bool, s: Seat, ms: seq<Move>, r: Seat)
    requires Kept(P, Q) && Ready(s) && P(s) && Leads(s, ms, r)
    requires forall i :: 0 <= i < |ms| ==> Q(ms[i])
    ensures P(r) && Ready(r)
    decreases ms
  {
    if ms != [] {
      MoveKeeps(s, ms[0]);
      PathKeeps(P, Q, Do(s, ms[0]), ms[1..], r);
    }
  }

  // Every move whose send may come out as in this turn.
  ghost predicate Permits(Q: Move -> bool, t: Turn) {
    forall m :: Sends(m, t.io.send, t.io2.send) ==> Q(m)
  }

  // A property kept by the permitted moves survives a turn.
  lemma TurnKeeps(P: Seat -> bool, Q: Move -> bool, s: Seat, t: Turn)
    requires Inv(s) && P(s) && Kept(P, Q) && Permits(Q, t)
    ensures P(Take(s, t))
  {
    var ms := TurnMoves(s, t.step, t.io, t.io2);
    PathKeeps(P, Q, s, ms, Take(s, t));
  }

  lemma {:induction false} RunKeepsWhere(P: Seat -> bool, Q: Move -> bool, s: Seat, turns: seq<Turn>)
    requires Inv(s) && P(s) && Kept(P, Q) && forall i :: 0 <= i < |turns| ==> Permits(Q, turns[i])
    ensures P(Run(s, turns))
  {
    if turns != [] {
      var n := |turns| - 1;
      RunKeepsWhere(P, Q, s, turns[..n]);
      TurnKeeps(P, Q, Run(s, turns[..n]), turns[n]);
    }
  }

  // A property kept by every move holds after every run.
  lemma RunKeeps(P: Seat -> bool, s: Seat, turns: seq<Turn>)
    requires Inv(s) && P(s) && Kept(P, m => true)
    ensures P(Run(s, turns))
  {
    RunKeepsWhere(P, m => true, s, turns);
  }

  predicate SendsSucceed(turns: seq<Turn>) {
    forall i :: 0 <= i < |turns| ==> turns[i].io.send.Delivered? && turns[i].io2.send.Delivered?
  }

  predicate WasSent(m: Move) {
    Sends(m, Delivered, Delivered)
  }

  // A property kept by every move but a failed send holds after every run without one.
  lemma SentRunKeeps(P: Seat -> bool, s: Seat, turns: seq<Turn>)
    requires Inv(s) && P(s) && Kept(P, m => WasSent(m)) && SendsSucceed(turns)
    ensures P(Run(s, turns))
  {
    RunKeepsWhere(P, m => WasSent(m), s, turns);
  }

  predicate NothingLeft(turns: seq<Turn>) {
    forall i :: 0 <= i < |turns| ==> !turns[i].io.send.Left? && !turns[i].io2.send.Left?
  }

  predicate LeavesNothing(m: Move) {
    Sends(m, Delivered, Dropped)
  }

  // One kept by every move that leaves no message on a ring holds after every run of such sends.
  lemma TidyRunKeeps(P: Seat -> bool, s: Seat, turns: seq<Turn>)
    requires Inv(s) && P(s) && Kept(P, m => LeavesNothing(m)) && NothingLeft(turns)
    ensures P(Run(s, turns))
  {
    RunKeepsWhere(P, m => LeavesNothing(m), s, turns);
  }
}
