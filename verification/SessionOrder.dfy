// The order in which a client's listeners hear about its seat.
module SessionOrder {
  import opened Protocol
  import opened SeatSpec
  import opened SeatInvariant
  import opened SeatRuns
  import opened SeatTold
  import opened Libseat
  import opened Letters
  import opened Mailing
  import opened Leftovers
  import opened Session
  import T = Talk

  // No turn of the daemon misleads the client.
  ghost predicate Unmisled(w: World, hs: seq<Happening>)
    requires Inv(w.seat)
    decreases |hs|
  {
    hs != [] && Can(w, hs[0]) ==>
      (hs[0].Daemon? ==> !Misleads(w.seat, hs[0].t, w.id)) && Unmisled(Session.Step(w, hs[0]), hs[1..])
  }

  lemma InStepAfter(w: World, h: Happening)
    requires Inv(w.seat) && Can(w, h) && InStep(w.seat, w.id) && (h.Daemon? ==> !Misleads(w.seat, h.t, w.id))
    ensures var r := Session.Step(w, h); r.id == w.id && Inv(r.seat) && InStep(r.seat, r.id)
  {
    hide Take, InStep, Misleads, Inv;
    if h.Daemon? { TurnInStep(w.seat, h.t, w.id); }
  }

  lemma {:induction false} InStepInTheEnd(w: World, hs: seq<Happening>, r: World)
    requires Runs(w, hs, r) && InStep(w.seat, w.id) && Unmisled(w, hs)
    ensures InStep(r.seat, r.id)
    decreases |hs|
  {
    hide Take, InStep, Misleads, Can, Session.Step;
    if hs != [] {
      InStepAfter(w, hs[0]);
      InStepInTheEnd(Session.Step(w, hs[0]), hs[1..], r);
    }
  }

  lemma PartAlternates(told: seq<u16>, seen: seq<u16>, rest: seq<u16>, n: nat)
    requires Alternates(told) && told == seen + rest && n <= |seen|
    ensures Alternates(seen[|seen| - n..])
  {
    var s, m := seen[|seen| - n..], |seen| - n;
    assert forall i :: 0 <= i < |s| ==> s[i] == told[m + i];
    forall i | 0 < i < |s| ensures s[i] != s[i - 1] { assert told[m + i] != told[m + i - 1]; }
  }

  // Of alternating events the pending ones are run in the order in which they were sent exactly if
  // their number is odd or zero.
  predicate InOrderIfOdd(l: Lib) {
    && NewestFirst(l)
    && (Opcodes(l.events) == Batch(l) <==> l.events == [] || |l.events| % 2 == 1)
  }

  lemma PendingInOrder(k: T.Talk)
    requires T.Sound(k) && !k.lib.error && Alternates(k.told)
    ensures InOrderIfOdd(k.lib)
  {
    hide Alternates, T.Streams, T.Owes, T.Pinged, T.Carried, T.Rests, Arrivals, Flat;
    BatchOrder(k.lib);
    PartAlternates(k.told, k.lib.seen, Events(k.mail), |k.lib.events|);
  }

  lemma ToldInTurn(w: World, hs: seq<Happening>, r: World)
    requires Begins(w) && InStep(w.seat, w.id) && Runs(w, hs, r) && Unmisled(w, hs)
    ensures Alternates(r.talk.told) && T.Sound(r.talk)
  {
    hide Begins, Runs, Alternates, AllTold, Inv, T.Sound, Unmisled, TellsToUse;
    InStepInTheEnd(w, hs, r);
    BeginsConsistent(w);
    RunConsistent(w, hs, r);
  }

  // The daemon was brought here from its start without misleading the client.
  ghost predicate Honestly(w: World, vtBound: bool, turns: seq<Turn>) {
    InitInStep(vtBound, w.id);
    w.seat == Run(Init(vtBound), turns) && NeverMisled(Init(vtBound), turns, w.id)
  }

  lemma HonestlyInStep(w: World, vtBound: bool, turns: seq<Turn>)
    requires Honestly(w, vtBound, turns)
    ensures InStep(w.seat, w.id)
  {
    InitInStep(vtBound, w.id);
    hide Run, NeverMisled, Init, Inv, InStep;
    InStepUpTo(Init(vtBound), turns, |turns|, w.id);
    assert turns[..|turns|] == turns;
  }

  // From the start of the daemon, in every run that does not mislead the client: the enables and
  // disables it is told alternate, and so its listeners are called in the order in which the events
  // were sent exactly if an odd number of them is pending, or none.
  lemma RightOrder(vtBound: bool, turns: seq<Turn>, w: World, hs: seq<Happening>, r: World)
    requires Honestly(w, vtBound, turns) && Begins(w) && Runs(w, hs, r) && Unmisled(w, hs) && !r.talk.lib.error
    ensures Alternates(r.talk.told) && InOrderIfOdd(r.talk.lib)
  {
    hide Honestly, Begins, Runs, Unmisled, Alternates, InOrderIfOdd, T.Sound, Inv, InStep;
    HonestlyInStep(w, vtBound, turns);
    ToldInTurn(w, hs, r);
    PendingInOrder(r.talk);
  }

  // In any run, the history of the library is what the daemon takes for sent if and only if no
  // message to this client was left on the ring by a failed send.
  lemma ToldAsSent(w: World, hs: seq<Happening>, r: World)
    requires Begins(w) && Runs(w, hs, r)
    ensures r.talk.told == AllSent(r.seat.log, r.id) <==> LeftCount(r.seat.log, r.id) == 0
  {
    hide Begins, Runs, AllTold, AllSent, LeftCount;
    ToldByDaemon(w, hs, r);
    ToldIsSent(r.seat.log, r.id);
  }
}
