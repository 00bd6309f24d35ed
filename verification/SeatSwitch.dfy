// At most one VT switch requested by the daemon is in flight.
module SeatSwitch {
  import opened SeatSpec
  import opened SeatInvariant
  import opened SeatMoves
  import opened SeatRuns

  // The VT asked for since the last handled VT event, or 0.
  function InFlight(log: seq<Effect>): int {
    if log == [] then 0
    else match log[|log| - 1]
      case VtActivated(vt) => vt
      case VtChanged(_, _) => 0
      case _ => InFlight(log[..|log| - 1])
  }

  // Between any two switches the kernel accepted, a VT event was handled.
  ghost predicate Separated(log: seq<Effect>) {
    forall i, j :: 0 <= i < j < |log| && log[i].VtActivated? && log[j].VtActivated? ==>
      exists k :: i < k < j && log[k].VtChanged?
  }

  ghost predicate SwitchOk(s: Seat) {
    s.pendingVt == InFlight(s.log) && Separated(s.log) && Positive(s.log)
  }

  ghost predicate Positive(log: seq<Effect>) {
    forall i :: 0 <= i < |log| && log[i].VtActivated? ==> log[i].vt > 0
  }

  // With nothing in flight, the last accepted switch is followed by a VT event.
  lemma {:induction false} NothingInFlight(log: seq<Effect>, i: nat)
    requires InFlight(log) == 0 && Positive(log) && i < |log| && log[i].VtActivated?
    ensures exists k :: i < k < |log| && log[k].VtChanged?
  {
    var n := |log| - 1;
    if !log[n].VtChanged? { NothingInFlight(log[..n], i); }
  }

  lemma SwitchEmit(log: seq<Effect>, e: Effect)
    requires Separated(log) && Positive(log) && (e.VtActivated? ==> e.vt > 0 && InFlight(log) == 0)
    ensures Separated(log + [e]) && Positive(log + [e])
    ensures InFlight(log + [e]) == if e.VtActivated? then e.vt else if e.VtChanged? then 0 else InFlight(log)
  {
    var l := log + [e];
    assert l[..|log|] == log;
    forall i, j | 0 <= i < j < |l| && l[i].VtActivated? && l[j].VtActivated?
      ensures exists k :: i < k < j && l[k].VtChanged?
    {
      if j == |log| { NothingInFlight(log, i); }
      var k :| i < k < j && log[k].VtChanged?;
      assert l[k].VtChanged?;
    }
  }

  lemma PendingAfter(s: Seat, m: Move)
    requires Legal(s, m)
    ensures Do(s, m).pendingVt == if m.AskVt? then m.vt else if m.VtMoved? then 0 else s.pendingVt
    ensures forall i :: 0 <= i < |Emitted(s, m)| ==>
              (Emitted(s, m)[i].VtActivated? <==> m.AskVt?) && (Emitted(s, m)[i].VtChanged? <==> m.VtMoved?)
  {
    hide ActivateAll, DeactivateAll, DropDrm, CloseAt, RemoveAt, SessionSet, FreshDeviceId, IndexOfPath, Without,
         GroupsNotOf;
  }

  lemma SwitchMove(s: Seat, m: Move)
    requires Legal(s, m) && SwitchOk(s)
    ensures SwitchOk(Do(s, m))
  {
    LogAfter(s, m);
    PendingAfter(s, m);
    var es := Emitted(s, m);
    if es == [] { assert s.log + es == s.log; } else { SwitchEmit(s.log, es[0]); }
  }

  // Over every run: the pending VT is the one asked for since the last event, and two accepted
  // switches are always separated by a VT event, whether a client or the control socket asked.
  lemma OneSwitchInFlight(vtBound: bool, turns: seq<Turn>)
    ensures var s := Run(Init(vtBound), turns);
            s.pendingVt == InFlight(s.log) && Separated(s.log)
  {
    var P := (s: Seat) => SwitchOk(s);
    forall s, m | Ready(s) && P(s) && Legal(s, m) ensures P(Do(s, m)) { SwitchMove(s, m); }
    RunKeeps(P, Init(vtBound), turns);
  }
}
