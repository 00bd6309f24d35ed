// Listeners that use the backend while execute_events is running: what they may do, and what
// execute_events keeps whatever they do.
module Listeners {
  import opened Ring
  import Protocol
  import opened SeatSpec
  import opened Libseat

  // What an application may do with the backend.
  datatype Use =
    | Calling(req: Request, flushed: bool, polls: seq<Poll>, pinged: bool)
    | Dispatching(immediate: bool, poll: Poll, before: Script, after: Script)

  datatype Uses = NoMore | Then(use: Use, rest: Uses)

  // What its listener does on one event after the other.
  datatype Script = Quiet | On(uses: Uses, rest: Script)

  function ScriptSize(s: Script): nat {
    match s case Quiet => 0 case On(uses, rest) => 1 + UsesSize(uses) + ScriptSize(rest)
  }

  function UsesSize(u: Uses): nat {
    match u case NoMore => 0 case Then(use, rest) => 1 + UseSize(use) + UsesSize(rest)
  }

  function UseSize(u: Use): nat {
    match u
    case Calling(_, _, _, _) => 0
    case Dispatching(_, _, before, after) => 1 + ScriptSize(before) + ScriptSize(after)
  }

  // ---------------------------------------------------------------- what every use comes to

  // The backend, and the number of descriptors it has received and not handed out.
  datatype Held = Held(l: Lib, fds: nat)

  // Calls other than open_seat and close_seat.
  predicate Plain(req: Request) {
    !req.OpenSeatReq? && !req.CloseSeatReq? && !req.PingReq?
  }

  function AfterCall(h: Held, req: Request, flushed: bool, polls: seq<Poll>, pinged: bool): Held {
    if h.l.error then h
    else if !flushed then Held(SetError(h.l), h.fds)
    else
      var w := Await(h.l, polls, h.fds);
      if w.verdict != Answered then Held(w.l, w.fds)
      else AfterReply(Held(w.l, w.fds), req, pinged)
  }

  function AfterReply(h: Held, req: Request, pinged: bool): Held {
    var got := TakeReply(h.l, req, h.fds > 0);
    Held(CheckPending(got.l, pinged), h.fds - if TakesFd(req, got, h.fds) then 1 else 0)
  }

  // open_device hands out a descriptor.
  predicate TakesFd(req: Request, got: Parsed, fds: nat) {
    req == OpenDeviceReq && got.outcome == Fine && fds > 0
  }

  // How far _open_seat and close_seat get before they run the listener, if they do.
  datatype Start = Start(h: Held, verdict: Verdict, ok: bool)

  // Without a seat the backend is destroyed.
  function WithSeat(h: Held, flushed: bool, polls: seq<Poll>): Start {
    if !flushed then Start(Held(SetError(h.l), h.fds), Failed, false)
    else
      var w := Await(h.l, polls, h.fds);
      match w.verdict
      case Blocked => Start(Held(w.l, w.fds), Blocked, false)
      case Answered =>
        var got := TakeReply(w.l, OpenSeatReq, w.fds > 0);
        if got.outcome == Fine then Start(Held(got.l, w.fds), Answered, true)
        else Start(Held(SetError(got.l), w.fds), Answered, false)
      case _ => Start(Held(SetError(w.l), w.fds), w.verdict, false)
  }

  // close_seat looks for its reply even if the wait for it failed.
  function WithoutSeat(h: Held, flushed: bool, polls: seq<Poll>): Start {
    if h.l.error then Start(h, Failed, true)
    else if !flushed then Start(Held(TakeReply(SetError(h.l), CloseSeatReq, false).l, h.fds), Failed, true)
    else
      var w := Await(h.l, polls, h.fds);
      if w.verdict == Blocked then Start(Held(w.l, w.fds), Blocked, false)
      else Start(Held(TakeReply(w.l, CloseSeatReq, false).l, w.fds), w.verdict, true)
  }

  // What the read in the middle of dispatch comes to.
  datatype Reading = Zero | Again | Failure | Positive

  datatype Interval = Interval(h: Held, read: Reading)

  predicate RoomFor(h: Held, p: Poll) {
    p.Arrives? && |h.l.ring| < CAP && h.fds + |p.fds| <= CAP / 4
  }

  // connection_read where dispatch does not poll first; its failure is not an error state.
  function ReadNow(h: Held, p: Poll): Interval {
    if RoomFor(h, p) then
      var ring := h.l.ring + Clip(h.l, p.bytes);
      Interval(Held(h.l.(ring := ring), h.fds + |p.fds|), if ring == [] then Zero else Positive)
    else Interval(h, if p.Arrives? || (p.RecvFails? && !p.again) then Failure else Again)
  }

  function ReadPolled(h: Held, p: Poll): Interval {
    var q := PollOnce(h.l, p, h.fds);
    var read := match q.progress
      case Going => if p.Arrives? then Positive else Zero
      case Stalled => if p.PollFails? then Failure else Again
      case Lost => Failure;
    Interval(Held(q.l, FdsAfter(h.l, p, h.fds)), read)
  }

  // A caller who has been served, or does not want to wait, is not kept waiting.
  function Between(h: Held, now: bool, p: Poll): Interval {
    if now then ReadNow(h, p) else ReadPolled(h, p)
  }

  // How many messages read_and_queue counted.
  function Packets(before: nat, after: nat): nat {
    if after <= before then (before - after) / Protocol.HEADER else 0
  }

  // What dispatch leaves, and what it returns.
  datatype Round = Round(h: Held, count: int)

  // Either half of dispatch: read_and_queue, then execute_events.
  function AfterHalf(h: Held, script: Script): Round
    decreases ScriptSize(script), 2, 0
  {
    var scan := ReadAndQueue(h.l, false);
    if scan.found == Unexpected then Round(Held(scan.l, h.fds), -1)
    else
      Round(AfterEvents(Held(scan.l, h.fds), script),
            Packets(|h.l.ring|, |scan.l.ring|) + |scan.l.events|)
  }

  function AfterDispatch(h: Held, immediate: bool, p: Poll, first: Script, second: Script): Round
    decreases ScriptSize(first) + ScriptSize(second), 4, 0
  {
    if h.l.error then Round(h, -1)
    else
      var a := AfterHalf(h, first);
      if a.count == -1 then a else AfterRead(a.count, Between(a.h, a.count > 0 || immediate, p), second)
  }

  // dispatch with its read behind it.
  function AfterRead(count: int, b: Interval, second: Script): Round
    decreases ScriptSize(second), 3, 0
  {
    match b.read
    case Zero => Round(b.h, count)
    case Failure => Round(b.h, -1)
    case _ => var c := AfterHalf(b.h, second); Round(c.h, if c.count == -1 then -1 else count + c.count)
  }

  // execute_events
  function AfterEvents(h: Held, script: Script): Held
    decreases ScriptSize(script), 1, 0
  {
    AfterList(Held(BeginExecute(h.l), h.fds), script)
  }

  // The loop of execute_events, over the list that was taken last.
  function AfterList(h: Held, script: Script): Held
    decreases ScriptSize(script), 0, if h.l.lists == [] then 0 else |h.l.lists[0]|
  {
    if h.l.lists == [] then h
    else if h.l.lists[0] == [] then Held(EndExecute(h.l), h.fds)
    else
      var n := Held(ExecuteNext(h.l), h.fds);
      match script
      case Quiet => AfterList(n, Quiet)
      case On(uses, rest) => AfterList(AfterUses(n, uses), rest)
  }

  function AfterUses(h: Held, uses: Uses): Held
    decreases UsesSize(uses), 5, 0
  {
    match uses case NoMore => h case Then(use, rest) => AfterUses(AfterUse(h, use), rest)
  }

  function AfterUse(h: Held, use: Use): Held
    decreases UseSize(use), 6, 0
  {
    match use
    case Calling(req, flushed, polls, pinged) =>
      if Plain(req) then AfterCall(h, req, flushed, polls, pinged) else h
    case Dispatching(immediate, poll, before, after) => AfterDispatch(h, immediate, poll, before, after).h
  }

  // ---------------------------------------------------------------- what every use keeps

  // The lists of the calls that are running are as they were, events were only added to those
  // executed, none was lost or duplicated, and an error state is for good.
  predicate GoesOn(l: Lib, r: Lib) {
    r.lists == l.lists && l.executed <= r.executed && (Conserved(l) ==> Conserved(r)) && (l.error ==> r.error)
  }

  lemma GoesNowhere(l: Lib)
    ensures GoesOn(l, l)
  {
  }

  lemma GoesOnOn(l: Lib, m: Lib, r: Lib)
    requires GoesOn(l, m) && GoesOn(m, r)
    ensures GoesOn(l, r)
  {
  }

  lemma SetErrorGoesOn(l: Lib)
    ensures GoesOn(l, SetError(l))
  {
    if Conserved(l) { SetErrorConserves(l); }
  }

  lemma AbsorbGoesOn(l: Lib)
    requires |l.ring| >= Protocol.HEADER
    ensures GoesOn(l, Absorb(l))
  {
    if Conserved(l) { AbsorbConserves(l); }
  }

  lemma ScanGoesOn(l: Lib, wanted: bool)
    ensures GoesOn(l, ReadAndQueue(l, wanted).l)
  {
    forall k: Lib | GoesOn(l, k)
      ensures GoesOn(l, SetError(k)) && (|k.ring| >= Protocol.HEADER ==> GoesOn(l, Absorb(k)))
    {
      SetErrorGoesOn(k);
      if |k.ring| >= Protocol.HEADER { AbsorbGoesOn(k); }
    }
    ScanKeeps(k => GoesOn(l, k), l, wanted);
  }

  lemma PollGoesOn(l: Lib, p: Poll, fds: nat)
    ensures GoesOn(l, PollOnce(l, p, fds).l)
  {
    SetErrorGoesOn(l);
  }

  lemma {:induction false} AwaitGoesOn(l: Lib, polls: seq<Poll>, fds: nat)
    ensures GoesOn(l, Await(l, polls, fds).l)
    decreases |polls|
  {
    var scan := ReadAndQueue(l, true);
    ScanGoesOn(l, true);
    assert Await(l, polls, fds) == AwaitMore(scan, polls, fds);
    if !(scan.found.Response? && scan.found.opcode != 0) && polls != [] {
      var p := PollOnce(scan.l, polls[0], fds);
      PollGoesOn(scan.l, polls[0], fds);
      GoesOnOn(l, scan.l, p.l);
      if p.progress == Going {
        var more := FdsAfter(scan.l, polls[0], fds);
        AwaitGoesOn(p.l, polls[1..], more);
        GoesOnOn(l, p.l, Await(p.l, polls[1..], more).l);
      }
    }
  }

  lemma ReplyGoesOn(l: Lib, req: Request, fd: bool)
    ensures GoesOn(l, TakeReply(l, req, fd).l)
  {
    ReplyOnlyReads(l, req, fd);
    SetErrorGoesOn(l);
  }

  lemma RemindGoesOn(l: Lib, sent: bool)
    ensures GoesOn(l, Remind(l, sent))
  {
    if Conserved(l) { RemindConserves(l, sent); }
  }

  lemma CheckGoesOn(l: Lib, sent: bool)
    ensures GoesOn(l, CheckPending(l, sent))
  {
    var r := ReadAndQueue(l, false).l;
    ScanGoesOn(l, false);
    RemindGoesOn(r, sent);
    GoesOnOn(l, r, Remind(r, sent));
  }

  // So does every synchronous call.
  lemma CallGoesOn(h: Held, req: Request, flushed: bool, polls: seq<Poll>, pinged: bool)
    ensures GoesOn(h.l, AfterCall(h, req, flushed, polls, pinged).l)
  {
    hide GoesOn, Await, TakeReply, CheckPending;
    GoesNowhere(h.l);
    SetErrorGoesOn(h.l);
    AwaitGoesOn(h.l, polls, h.fds);
    var w := Await(h.l, polls, h.fds);
    var got := TakeReply(w.l, req, w.fds > 0);
    ReplyGoesOn(w.l, req, w.fds > 0);
    CheckGoesOn(got.l, pinged);
    GoesOnOn(h.l, w.l, got.l);
    GoesOnOn(h.l, got.l, CheckPending(got.l, pinged));
  }

  // ---------------------------------------------------------------- execute_events

  // A subsequence, in order.
  predicate Inside<T(==)>(a: seq<T>, b: seq<T>) {
    a == [] ||
    (b != [] && (Inside(a, b[..|b| - 1]) || (a[|a| - 1] == b[|b| - 1] && Inside(a[..|a| - 1], b[..|b| - 1]))))
  }

  lemma InsideSnoc<T>(a: seq<T>, b: seq<T>, x: T)
    requires Inside(a, b)
    ensures Inside(a + [x], b + [x])
  {
    assert (a + [x])[..|a|] == a && (b + [x])[..|b|] == b;
  }

  lemma {:induction false} InsideMore<T>(a: seq<T>, b: seq<T>, c: seq<T>)
    requires Inside(a, b)
    ensures Inside(a, b + c)
    decreases |c|
  {
    if c == [] {
      assert b + c == b;
    } else {
      InsideMore(a, b, c[..|c| - 1]);
      assert (b + c)[..|b + c| - 1] == b + c[..|c| - 1];
    }
  }

  // execute_events was entered in `l`, has run `count` events, and the backend is in `now`.
  datatype Executing = Executing(l: Lib, count: nat, now: Lib)

  predicate Runs(x: Executing) {
    && x.count <= |x.l.events|
    && x.now.lists == [x.l.events[x.count..]] + x.l.lists
    && x.l.executed <= x.now.executed && Inside(x.l.events[..x.count], x.now.executed[|x.l.executed|..])
    && (Conserved(x.l) ==> Conserved(x.now)) && (x.l.error ==> x.now.error)
  }

  // With nobody else doing anything.
  predicate RunsQuietly(x: Executing) {
    x.count <= |x.l.events| &&
    x.now == x.l.(events := [], lists := [x.l.events[x.count..]] + x.l.lists,
      executed := x.l.executed + x.l.events[..x.count])
  }

  lemma RunsFirst(l: Lib)
    ensures Runs(Executing(l, 0, BeginExecute(l))) && RunsQuietly(Executing(l, 0, BeginExecute(l)))
  {
    if Conserved(l) { BeginConserves(l); }
    assert l.executed + l.events[..0] == l.executed;
  }

  lemma RunsNext(x: Executing)
    requires Runs(x) && x.now.lists[0] != []
    ensures x.count < |x.l.events| && x.now.lists[0][0] == x.l.events[x.count]
    ensures Runs(Executing(x.l, x.count + 1, ExecuteNext(x.now)))
  {
    hide Conserved, Inside;
    var e, n := x.l.events, x.count;
    if Conserved(x.l) { ExecuteConserves(x.now); }
    assert e[n..][1..] == e[n + 1..];
    OneMoreInside(e, n, x.now.executed, |x.l.executed|);
  }

  lemma OneMoreInside(e: seq<Pending>, n: nat, executed: seq<Pending>, k: nat)
    requires n < |e| && k <= |executed| && Inside(e[..n], executed[k..])
    ensures Inside(e[..n + 1], (executed + [e[n]])[k..])
  {
    assert e[..n] + [e[n]] == e[..n + 1];
    assert (executed + [e[n]])[k..] == executed[k..] + [e[n]];
    InsideSnoc(e[..n], executed[k..], e[n]);
  }

  lemma QuietNext(x: Executing)
    requires RunsQuietly(x) && x.count < |x.l.events|
    ensures x.now.lists[0] != [] && RunsQuietly(Executing(x.l, x.count + 1, ExecuteNext(x.now)))
  {
    var e, n := x.l.events, x.count;
    assert e[n..][1..] == e[n + 1..];
    assert x.l.executed + e[..n] + [e[n]] == x.l.executed + e[..n + 1];
  }

  lemma RunsOn(x: Executing, r: Lib)
    requires Runs(x) && GoesOn(x.now, r)
    ensures Runs(x.(now := r))
  {
    var k := |x.l.executed|;
    var done, more := x.now.executed[k..], r.executed[|x.now.executed|..];
    assert r.executed[k..] == done + more;
    InsideMore(x.l.events[..x.count], done, more);
  }

  lemma RunsDone(x: Executing)
    requires Runs(x) && x.now.lists[0] == []
    ensures x.count == |x.l.events| && GoesOn(x.l, EndExecute(x.now))
    ensures Inside(x.l.events, EndExecute(x.now).executed[|x.l.executed|..])
    ensures RunsQuietly(x) ==> EndExecute(x.now) == RunAll(x.l)
  {
    assert x.l.events[..x.count] == x.l.events;
    assert ([x.l.events[x.count..]] + x.l.lists)[1..] == x.l.lists;
    if Conserved(x.l) { EndConserves(x.now); }
  }

  lemma EndConserves(l: Lib)
    requires Conserved(l) && l.lists != [] && l.lists[0] == []
    ensures Conserved(EndExecute(l))
  {
  }

  // The rest of the loop.
  lemma {:induction false} ListGoesOn(x: Executing, fds: nat, script: Script)
    requires Runs(x)
    ensures var r := AfterList(Held(x.now, fds), script).l;
            GoesOn(x.l, r) && Inside(x.l.events, r.executed[|x.l.executed|..])
    ensures script == Quiet && RunsQuietly(x) ==> AfterList(Held(x.now, fds), script).l == RunAll(x.l)
    decreases ScriptSize(script), 0, |x.l.events| - x.count
  {
    hide GoesOn, Inside;
    if x.now.lists[0] == [] {
      RunsDone(x);
    } else {
      RunsNext(x);
      var y := Executing(x.l, x.count + 1, ExecuteNext(x.now));
      if RunsQuietly(x) { QuietNext(x); }
      match script
      case Quiet => ListGoesOn(y, fds, Quiet);
      case On(uses, rest) =>
        var m := AfterUses(Held(y.now, fds), uses);
        UsesGoOn(Held(y.now, fds), uses);
        RunsOn(y, m.l);
        ListGoesOn(y.(now := m.l), m.fds, rest);
    }
  }

  // Each event that was pending is run, once and in list order, whatever the listener does with the
  // backend in between.
  lemma {:induction false} EventsGoOn(h: Held, script: Script)
    ensures var r := AfterEvents(h, script).l;
            GoesOn(h.l, r) && Inside(h.l.events, r.executed[|h.l.executed|..]) && (script == Quiet ==> r == RunAll(h.l))
    decreases ScriptSize(script), 1, 0
  {
    RunsFirst(h.l);
    ListGoesOn(Executing(h.l, 0, BeginExecute(h.l)), h.fds, script);
  }

  lemma {:induction false} HalfGoesOn(h: Held, script: Script)
    ensures GoesOn(h.l, AfterHalf(h, script).h.l)
    decreases ScriptSize(script), 2, 0
  {
    hide GoesOn, AfterEvents;
    var l := ReadAndQueue(h.l, false).l;
    ScanGoesOn(h.l, false);
    EventsGoOn(Held(l, h.fds), script);
    GoesOnOn(h.l, l, AfterEvents(Held(l, h.fds), script).l);
  }

  lemma BetweenGoesOn(h: Held, now: bool, p: Poll)
    ensures GoesOn(h.l, Between(h, now, p).h.l)
  {
    PollGoesOn(h.l, p, h.fds);
  }

  lemma {:induction false} DispatchGoesOn(h: Held, immediate: bool, p: Poll, first: Script, second: Script)
    ensures GoesOn(h.l, AfterDispatch(h, immediate, p, first, second).h.l)
    decreases ScriptSize(first) + ScriptSize(second), 4, 0
  {
    hide GoesOn, AfterHalf, Between;
    GoesNowhere(h.l);
    var a := AfterHalf(h, first);
    HalfGoesOn(h, first);
    var b := Between(a.h, a.count > 0 || immediate, p);
    BetweenGoesOn(a.h, a.count > 0 || immediate, p);
    GoesOnOn(h.l, a.h.l, b.h.l);
    HalfGoesOn(b.h, second);
    GoesOnOn(h.l, b.h.l, AfterHalf(b.h, second).h.l);
  }

  lemma {:induction false} UseGoesOn(h: Held, use: Use)
    ensures GoesOn(h.l, AfterUse(h, use).l)
    decreases UseSize(use), 6, 0
  {
    hide GoesOn, AfterCall, AfterDispatch;
    GoesNowhere(h.l);
    match use
    case Calling(req, flushed, polls, pinged) => CallGoesOn(h, req, flushed, polls, pinged);
    case Dispatching(immediate, poll, before, after) => DispatchGoesOn(h, immediate, poll, before, after);
  }

  lemma {:induction false} UsesGoOn(h: Held, uses: Uses)
    ensures GoesOn(h.l, AfterUses(h, uses).l)
    decreases UsesSize(uses), 5, 0
  {
    hide GoesOn, AfterUse;
    GoesNowhere(h.l);
    match uses
    case NoMore =>
    case Then(use, rest) =>
      UseGoesOn(h, use);
      UsesGoOn(AfterUse(h, use), rest);
      GoesOnOn(h.l, AfterUse(h, use).l, AfterUses(AfterUse(h, use), rest).l);
  }

  // close_seat runs what is pending, and leaves an unusable backend.
  lemma ClosedForGood(h: Held, script: Script)
    ensures var r := Cleanup(SetError(AfterEvents(h, script).l));
            && r.error && r.events == []
            && h.l.executed <= r.executed && Inside(h.l.events, r.executed[|h.l.executed|..])
  {
    EventsGoOn(h, script);
  }

  // With a listener that does not call back, dispatch leaves nothing pending.
  lemma QuietHalf(h: Held)
    ensures var r := AfterHalf(h, Quiet);
            r.count != -1 ==>
              && r.h.l == RunAll(ReadAndQueue(h.l, false).l)
              && r.h.l.events == [] && |r.h.l.ring| < Protocol.HEADER
  {
    var l := ReadAndQueue(h.l, false).l;
    ScanReadsAll(h.l);
    EventsGoOn(Held(l, h.fds), Quiet);
  }

  lemma QuietDispatch(h: Held, immediate: bool, p: Poll)
    ensures var r := AfterDispatch(h, immediate, p, Quiet, Quiet);
            r.count >= 0 ==> r.h.l.events == [] && |r.h.l.ring| < Protocol.HEADER
  {
    hide AfterHalf, ReadAndQueue, RunAll;
    var a := AfterHalf(h, Quiet);
    QuietHalf(h);
    QuietHalf(Between(a.h, a.count > 0 || immediate, p).h);
  }
}
