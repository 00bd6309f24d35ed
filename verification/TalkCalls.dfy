// The synchronous functions and dispatch of the client library, as Backend has them, with listeners
// that call back, are runs of the steps of Talk: what is proved there about every run is true of them.
module TalkCalls {
  import opened Options
  import opened Ring
  import opened SeatSpec
  import opened Libseat
  import opened Listeners
  import opened Letters
  import T = Talk

  ghost predicate ActRun(k: T.Talk, acts: seq<T.Act>, r: T.Talk)
    decreases |acts|
  {
    if acts == [] then r == k else T.Enabled(k, acts[0]) && ActRun(T.Do(k, acts[0]), acts[1..], r)
  }

  lemma OneAct(k: T.Talk, a: T.Act)
    requires T.Enabled(k, a)
    ensures ActRun(k, [a], T.Do(k, a))
  {
    assert [a][1..] == [];
  }

  lemma FirstAct(k: T.Talk, a: T.Act, acts: seq<T.Act>, r: T.Talk)
    requires T.Enabled(k, a) && ActRun(T.Do(k, a), acts, r)
    ensures ActRun(k, [a] + acts, r)
  {
    assert ([a] + acts)[1..] == acts;
  }

  lemma {:induction false} ActRunOn(k: T.Talk, a: seq<T.Act>, m: T.Talk, b: seq<T.Act>, r: T.Talk)
    requires ActRun(k, a, m) && ActRun(m, b, r)
    ensures ActRun(k, a + b, r)
    decreases |a|
  {
    hide T.Do, T.Enabled;
    if a == [] {
      assert a + b == b;
    } else {
      ActRunOn(T.Do(k, a[0]), a[1..], m, b, r);
      FirstAct(k, a[0], a[1..] + b, r);
      assert [a[0]] + (a[1..] + b) == a + b;
    }
  }

  // ---------------------------------------------------------------- waiting for a reply

  // While the library waits in poll(2) the daemon may post; then the poll returns.
  datatype Beat = Beat(posts: seq<T.Act>, poll: Poll)

  function Polls(beats: seq<Beat>): seq<Poll> {
    if beats == [] then [] else [beats[0].poll] + Polls(beats[1..])
  }

  // Only the daemon acts, and it does not touch what the library has.
  ghost predicate Posting(k: T.Talk, posts: seq<T.Act>, p: T.Talk) {
    && ActRun(k, posts, p) && (forall i :: 0 <= i < |posts| ==> posts[i].Post?)
    && p.lib == k.lib && p.waiting == k.waiting && p.fds == k.fds
  }

  // What arrives is the beginning of what is on the wire, and descriptors do not come without bytes.
  predicate Flows(p: T.Talk, poll: Poll) {
    poll.Arrives? ==>
      poll.bytes <= p.wire && |p.lib.ring| + |poll.bytes| <= CAP && (poll.bytes == [] ==> poll.fds == [])
  }

  function Bytes(poll: Poll): nat {
    if poll.Arrives? then |poll.bytes| else 0
  }

  function Descriptors(poll: Poll): nat {
    if poll.Arrives? then |poll.fds| else 0
  }

  predicate Replied(k: T.Talk) {
    T.Found(k, true).Response? && T.Found(k, true).opcode != 0
  }

  function HeldOf(k: T.Talk): Held {
    Held(k.lib, |k.fds|)
  }

  // A call that waits, with `n` bytes and `m` descriptors just received, goes through these beats
  // and is then at `r`.
  ghost predicate Waits(k: T.Talk, n: nat, m: nat, beats: seq<Beat>, pinged: bool, r: T.Talk)
    requires k.waiting.Some?
    decreases |beats|, 1
  {
    && T.Arrival(k, n, m)
    && if Replied(T.Receive(k, n, m)) || beats == [] then r == T.Poll(k, n, m, pinged)
       else exists p: T.Talk :: Beats(T.Read(T.Receive(k, n, m), true), beats[0], p) && PollReturns(p, beats, pinged, r)
  }

  // Up to where the poll returns.
  ghost predicate Beats(k: T.Talk, b: Beat, p: T.Talk) {
    Posting(k, b.posts, p) && Flows(p, b.poll) && T.Arrival(p, Bytes(b.poll), Descriptors(b.poll))
  }

  ghost predicate PollReturns(p: T.Talk, beats: seq<Beat>, pinged: bool, r: T.Talk)
    requires beats != [] && p.waiting.Some?
    decreases |beats|, 0
  {
    var poll := beats[0].poll;
    match PollOnce(p.lib, poll, |p.fds|).progress
    case Going => Waits(p, Bytes(poll), Descriptors(poll), beats[1..], pinged, r)
    case Lost => r == T.Do(p, T.Fail)
    case Stalled => T.Enabled(p, T.GiveUp) && r == T.Do(p, T.GiveUp)
  }

  // What a call does with the reply it has read, up to where listeners run.
  function Wound(req: Request, got: Parsed, pinged: bool): Lib {
    if req == OpenSeatReq && got.outcome != Fine then SetError(got.l)
    else if req == OpenSeatReq || req == CloseSeatReq then BeginExecute(got.l)
    else CheckPending(got.l, pinged)
  }

  // The outcome of a wait for the reply to `ask` is that of the run.
  predicate Agrees(w: Waited, ask: Ask, r: T.Talk, pinged: bool) {
    match w.verdict
    case Answered =>
      var got := TakeReply(w.l, ask.req, w.fds > 0);
      && r.waiting.None? && r.lib == Wound(ask.req, got, pinged)
      && |r.fds| == w.fds - if TakesFd(ask.req, got, w.fds) then 1 else 0
    case Blocked => r.waiting == Some(ask) && HeldOf(r) == Held(w.l, w.fds)
    case Abandoned => r.waiting.None? && HeldOf(r) == Held(w.l, w.fds) && !r.lib.error
    case Failed => r.waiting.None? && HeldOf(r) == Held(w.l, w.fds) && r.lib.error
  }

  // The wait as it goes on after a poll.
  function After(l: Lib, rest: seq<Poll>, poll: Poll, fds: nat): Waited {
    var q, more := PollOnce(l, poll, fds), FdsAfter(l, poll, fds);
    match q.progress
    case Going => Await(q.l, rest, more)
    case Lost => Waited(q.l, Failed, more)
    case Stalled => Waited(q.l, Abandoned, more)
  }

  // One poll that ends the wait.
  lemma PollEnds(p: T.Talk, ask: Ask, beats: seq<Beat>, rest: seq<Poll>, pinged: bool, r: T.Talk) returns (a: T.Act)
    requires p.waiting == Some(ask) && !p.lib.error && beats != [] && Flows(p, beats[0].poll)
    requires PollOnce(p.lib, beats[0].poll, |p.fds|).progress != Going && PollReturns(p, beats, pinged, r)
    ensures T.Enabled(p, a) && r == T.Do(p, a)
    ensures Agrees(After(p.lib, rest, beats[0].poll, |p.fds|), ask, r, pinged)
  {
    a := if PollOnce(p.lib, beats[0].poll, |p.fds|).progress == Lost then T.Fail else T.GiveUp;
  }

  // One that does not: what it brings is received.
  lemma PollBrings(p: T.Talk, poll: Poll)
    requires Flows(p, poll) && Bytes(poll) <= |p.wire| && Descriptors(poll) <= |p.fdWire|
    requires PollOnce(p.lib, poll, |p.fds|).progress == Going
    ensures HeldOf(T.Receive(p, Bytes(poll), Descriptors(poll))) ==
            Held(PollOnce(p.lib, poll, |p.fds|).l, FdsAfter(p.lib, poll, |p.fds|))
  {
    if poll.Arrives? {
      assert p.wire[..Bytes(poll)] == poll.bytes;
    } else {
      assert p.lib.ring + p.wire[..0] == p.lib.ring;
    }
  }

  lemma ScanAnswers(k: T.Talk, ask: Ask, n: nat, m: nat, polls: seq<Poll>, pinged: bool)
    requires k.waiting == Some(ask) && n <= |k.wire| && m <= |k.fdWire| && Replied(T.Receive(k, n, m))
    ensures var r := T.Receive(k, n, m); Agrees(Await(r.lib, polls, |r.fds|), ask, T.Poll(k, n, m, pinged), pinged)
  {
    hide ReadAndQueue, TakeReply, T.WindUp;
    var r := T.Receive(k, n, m);
    assert Await(r.lib, polls, |r.fds|) == AwaitMore(ReadAndQueue(r.lib, true), polls, |r.fds|);
    var s := T.Read(r, true);
    assert T.Poll(k, n, m, pinged) == T.Finish(s, pinged);
    WindUpIs(T.Consume(s), ask.req, T.Outcome(s), pinged);
  }

  lemma WindUpIs(c: T.Talk, req: Request, got: Parsed, pinged: bool)
    requires c.lib == got.l
    ensures var w := T.WindUp(c, req, got.outcome == Fine, pinged);
            w.lib == Wound(req, got, pinged) && w.waiting == c.waiting && w.fds == c.fds
  {
  }

  lemma ScanBlocks(k: T.Talk, ask: Ask, n: nat, m: nat, pinged: bool)
    requires k.waiting == Some(ask) && n <= |k.wire| && m <= |k.fdWire| && !Replied(T.Receive(k, n, m))
    ensures var r := T.Receive(k, n, m); Agrees(Await(r.lib, [], |r.fds|), ask, T.Poll(k, n, m, pinged), pinged)
  {
    var r := T.Receive(k, n, m);
    assert Await(r.lib, [], |r.fds|) == AwaitMore(ReadAndQueue(r.lib, true), [], |r.fds|);
    assert T.Poll(k, n, m, pinged) == T.Read(r, true);
  }

  lemma ScanWaits(l: Lib, beats: seq<Beat>, fds: nat)
    requires beats != [] && var f := ReadAndQueue(l, true).found; !(f.Response? && f.opcode != 0)
    ensures Await(l, Polls(beats), fds) == After(ReadAndQueue(l, true).l, Polls(beats[1..]), beats[0].poll, fds)
  {
    assert Polls(beats)[1..] == Polls(beats[1..]);
  }

  // The loop of read_until_response.
  lemma {:induction false} AwaitIsRun(k: T.Talk, ask: Ask, n: nat, m: nat, beats: seq<Beat>, pinged: bool, r: T.Talk)
    returns (acts: seq<T.Act>)
    requires k.waiting == Some(ask) && !k.lib.error && Waits(k, n, m, beats, pinged, r)
    ensures ActRun(k, acts, r)
    ensures var s := T.Receive(k, n, m); Agrees(Await(s.lib, Polls(beats), |s.fds|), ask, r, pinged)
    decreases |beats|, 1
  {
    var a := T.Await(n, m, pinged);
    if Replied(T.Receive(k, n, m)) || beats == [] {
      OneAct(k, a);
      acts := [a];
      if Replied(T.Receive(k, n, m)) {
        ScanAnswers(k, ask, n, m, Polls(beats), pinged);
      } else {
        ScanBlocks(k, ask, n, m, pinged);
      }
    } else {
      acts := BeatIsRun(k, ask, n, m, beats, pinged, r);
      FirstAct(k, a, acts, r);
      acts := [a] + acts;
    }
  }

  lemma {:induction false} BeatIsRun(k: T.Talk, ask: Ask, n: nat, m: nat, beats: seq<Beat>, pinged: bool, r: T.Talk)
    returns (acts: seq<T.Act>)
    requires k.waiting == Some(ask) && !k.lib.error && Waits(k, n, m, beats, pinged, r)
    requires beats != [] && !Replied(T.Receive(k, n, m))
    ensures ActRun(T.Read(T.Receive(k, n, m), true), acts, r)
    ensures var s := T.Receive(k, n, m); Agrees(Await(s.lib, Polls(beats), |s.fds|), ask, r, pinged)
    decreases |beats|, 0
  {
    var u, b := T.Receive(k, n, m), beats[0];
    var s := T.Read(u, true);
    WantedIsSafe(u.lib);
    ScanWaits(u.lib, beats, |u.fds|);
    var p: T.Talk :| Beats(s, b, p) && PollReturns(p, beats, pinged, r);
    var more: seq<T.Act>;
    if PollOnce(p.lib, b.poll, |p.fds|).progress == Going {
      PollBrings(p, b.poll);
      more := AwaitIsRun(p, ask, Bytes(b.poll), Descriptors(b.poll), beats[1..], pinged, r);
    } else {
      var a := PollEnds(p, ask, beats, Polls(beats[1..]), pinged, r);
      OneAct(p, a);
      more := [a];
    }
    ActRunOn(s, b.posts, p, more, r);
    acts := b.posts + more;
  }

  lemma NothingReceived(k: T.Talk)
    ensures T.Receive(k, 0, 0) == k
  {
    assert k.lib.ring + k.wire[..0] == k.lib.ring && k.fds + k.fdWire[..0] == k.fds;
  }

  // The wait of a call, from the call on.
  lemma WaitIsRun(k: T.Talk, req: Request, beats: seq<Beat>, pinged: bool, r: T.Talk) returns (acts: seq<T.Act>)
    requires T.Enabled(k, T.Call(req, true)) && Waits(T.Begin(k, req, true), 0, 0, beats, pinged, r)
    ensures ActRun(k, acts, r)
    ensures Agrees(Await(k.lib, Polls(beats), |k.fds|), Ask(req, k.calls), r, pinged)
  {
    var b := T.Begin(k, req, true);
    NothingReceived(b);
    acts := AwaitIsRun(b, Ask(req, k.calls), 0, 0, beats, pinged, r);
    FirstAct(k, T.Call(req, true), acts, r);
    acts := [T.Call(req, true)] + acts;
  }

  // ---------------------------------------------------------------- calls

  // A synchronous call is made at `k`, the connection does what the call finds, and it is now at `r`.
  ghost predicate CallLives(k: T.Talk, req: Request, flushed: bool, polls: seq<Poll>, pinged: bool, r: T.Talk) {
    if k.lib.error then r == k
    else if !flushed then r == T.Begin(k, req, false)
    else exists beats: seq<Beat> :: Polls(beats) == polls && Waits(T.Begin(k, req, true), 0, 0, beats, pinged, r)
  }

  // A synchronous call of Backend is a run of steps, with the same result; where it has not returned
  // it is waiting there too.
  lemma CallIsRun(k: T.Talk, req: Request, flushed: bool, polls: seq<Poll>, pinged: bool, r: T.Talk)
    returns (acts: seq<T.Act>)
    requires k.waiting.None? && Plain(req) && CallLives(k, req, flushed, polls, pinged, r)
    ensures ActRun(k, acts, r) && HeldOf(r) == AfterCall(HeldOf(k), req, flushed, polls, pinged)
    ensures r.waiting.Some? <==> !k.lib.error && flushed && Await(k.lib, polls, |k.fds|).verdict == Blocked
  {
    hide ActRun, Await, TakeReply, CheckPending, Waits;
    if k.lib.error {
      acts := NoAct(k);
    } else if !flushed {
      OneAct(k, T.Call(req, false));
      acts := [T.Call(req, false)];
    } else {
      var beats: seq<Beat> :| Polls(beats) == polls && Waits(T.Begin(k, req, true), 0, 0, beats, pinged, r);
      acts := WaitIsRun(k, req, beats, pinged, r);
    }
  }

  lemma NoAct(k: T.Talk) returns (acts: seq<T.Act>)
    ensures ActRun(k, acts, k)
  {
    acts := [];
  }

  // ---------------------------------------------------------------- listeners and dispatch

  // The same for one use of the backend, which must return, ...
  ghost predicate UseLives(k: T.Talk, use: Use, r: T.Talk)
    requires k.waiting.None?
    decreases UseSize(use), 6, 0
  {
    match use
    case Calling(req, flushed, polls, pinged) =>
      if Plain(req) then CallLives(k, req, flushed, polls, pinged, r) && r.waiting.None? else r == k
    case Dispatching(immediate, poll, before, after) => DispatchLives(k, immediate, poll, before, after, r)
  }

  // ... for a sequence of them, with the daemon posting in between, ...
  ghost predicate UsesLive(k: T.Talk, uses: Uses, r: T.Talk)
    requires k.waiting.None?
    decreases UsesSize(uses), 5, 0
  {
    exists posts: seq<T.Act>, p: T.Talk ::
      && Posting(k, posts, p)
      && match uses
         case NoMore => r == p
         case Then(use, rest) => exists m: T.Talk :: UseLives(p, use, m) && m.waiting.None? && UsesLive(m, rest, r)
  }

  // ... for the loop of execute_events, ...
  ghost predicate ListLives(k: T.Talk, script: Script, r: T.Talk)
    decreases ScriptSize(script), 0, if k.lib.lists == [] then 0 else |k.lib.lists[0]|
  {
    && k.waiting.None? && k.lib.lists != []
    && if k.lib.lists[0] == [] then r == T.Do(k, T.ListenersDone)
       else
         var n := T.Do(k, T.RunListener);
         match script
         case Quiet => ListLives(n, Quiet, r)
         case On(uses, rest) => exists m: T.Talk :: UsesLive(n, uses, m) && ListLives(m, rest, r)
  }

  // ... for half a dispatch, with `n` bytes and `m` descriptors just received, ...
  ghost predicate HalfLives(k: T.Talk, n: nat, m: nat, script: Script, r: T.Talk)
    decreases ScriptSize(script), 2, 0
  {
    && T.Enabled(k, T.Dispatch(n, m))
    && var h := T.Do(k, T.Dispatch(n, m));
       if T.Found(T.Receive(k, n, m), false) == Unexpected then r == h else ListLives(h, script, r)
  }

  // ... for what follows the first half, ...
  ghost predicate ReadLives(k: T.Talk, now: bool, poll: Poll, second: Script, r: T.Talk)
    decreases ScriptSize(second), 3, 0
  {
    exists posts: seq<T.Act>, b: T.Talk ::
      Posting(k, posts, b) && Flows(b, poll) && ReadReturns(b, now, poll, second, r)
  }

  ghost predicate ReadReturns(b: T.Talk, now: bool, poll: Poll, second: Script, r: T.Talk)
    decreases ScriptSize(second), 2, 1
  {
    match Between(HeldOf(b), now, poll).read
    case Zero => r == b
    case Failure => r == if LosesIt(b, now, poll) then T.Do(b, T.Fail) else b
    case _ => HalfLives(b, Bytes(poll), Descriptors(poll), second, r)
  }

  predicate LosesIt(b: T.Talk, now: bool, poll: Poll) {
    !now && PollOnce(b.lib, poll, |b.fds|).progress == Lost
  }

  // ... and for dispatch.
  ghost predicate DispatchLives(k: T.Talk, immediate: bool, poll: Poll, first: Script, second: Script, r: T.Talk)
    requires k.waiting.None?
    decreases ScriptSize(first) + ScriptSize(second), 4, 0
  {
    if k.lib.error then r == k
    else
      var count := AfterHalf(HeldOf(k), first).count;
      exists a: T.Talk ::
        && HalfLives(k, 0, 0, first, a)
        && if count == -1 then r == a else ReadLives(a, count > 0 || immediate, poll, second, r)
  }

  // What listeners do is a run, and what Backend does.
  lemma {:induction false} ListIsRun(k: T.Talk, script: Script, r: T.Talk) returns (acts: seq<T.Act>)
    requires ListLives(k, script, r)
    ensures ActRun(k, acts, r) && r.waiting.None? && HeldOf(r) == AfterList(HeldOf(k), script)
    decreases ScriptSize(script), 0, if k.lib.lists == [] then 0 else |k.lib.lists[0]|
  {
    hide ActRun, UsesLive, AfterUses;
    if k.lib.lists[0] == [] {
      OneAct(k, T.ListenersDone);
      return [T.ListenersDone];
    }
    var n := T.Do(k, T.RunListener);
    match script {
      case Quiet =>
        acts := ListIsRun(n, Quiet, r);
      case On(uses, rest) =>
        var m: T.Talk :| UsesLive(n, uses, m) && ListLives(m, rest, r);
        var some := UsesAreRun(n, uses, m);
        acts := ListIsRun(m, rest, r);
        ActRunOn(n, some, m, acts, r);
        acts := some + acts;
    }
    FirstAct(k, T.RunListener, acts, r);
    acts := [T.RunListener] + acts;
  }

  lemma {:induction false} UsesAreRun(k: T.Talk, uses: Uses, r: T.Talk) returns (acts: seq<T.Act>)
    requires k.waiting.None? && UsesLive(k, uses, r)
    ensures ActRun(k, acts, r) && r.waiting.None? && HeldOf(r) == AfterUses(HeldOf(k), uses)
    decreases UsesSize(uses), 5, 0
  {
    hide ActRun, UseLives, AfterUse;
    var posts: seq<T.Act>, p: T.Talk :|
      && Posting(k, posts, p)
      && match uses
         case NoMore => r == p
         case Then(use, rest) => exists m: T.Talk :: UseLives(p, use, m) && m.waiting.None? && UsesLive(m, rest, r);
    match uses
    case NoMore =>
      acts := posts;
    case Then(use, rest) =>
      var m: T.Talk :| UseLives(p, use, m) && m.waiting.None? && UsesLive(m, rest, r);
      var one := UseIsRun(p, use, m);
      var more := UsesAreRun(m, rest, r);
      ActRunOn(p, one, m, more, r);
      ActRunOn(k, posts, p, one + more, r);
      acts := posts + (one + more);
  }

  lemma {:induction false} UseIsRun(k: T.Talk, use: Use, r: T.Talk) returns (acts: seq<T.Act>)
    requires k.waiting.None? && UseLives(k, use, r)
    ensures ActRun(k, acts, r) && r.waiting.None? && HeldOf(r) == AfterUse(HeldOf(k), use)
    decreases UseSize(use), 6, 0
  {
    hide ActRun, CallLives, DispatchLives, AfterCall, AfterDispatch;
    match use
    case Calling(req, flushed, polls, pinged) =>
      if Plain(req) {
        acts := CallIsRun(k, req, flushed, polls, pinged, r);
      } else {
        acts := NoAct(k);
      }
    case Dispatching(immediate, poll, before, after) =>
      acts := DispatchIsRun(k, immediate, poll, before, after, r);
  }

  lemma {:induction false} HalfIsRun(k: T.Talk, n: nat, m: nat, script: Script, r: T.Talk) returns (acts: seq<T.Act>)
    requires HalfLives(k, n, m, script, r)
    ensures ActRun(k, acts, r) && r.waiting.None?
    ensures HeldOf(r) == AfterHalf(HeldOf(T.Receive(k, n, m)), script).h
    decreases ScriptSize(script), 2, 0
  {
    hide ActRun, ListLives, AfterList;
    var a := T.Dispatch(n, m);
    if T.Found(T.Receive(k, n, m), false) == Unexpected {
      OneAct(k, a);
      return [a];
    }
    acts := ListIsRun(T.Do(k, a), script, r);
    FirstAct(k, a, acts, r);
    acts := [a] + acts;
  }

  lemma HalfIsEnabled(k: T.Talk, n: nat, m: nat, script: Script, r: T.Talk)
    requires HalfLives(k, n, m, script, r)
    ensures T.Enabled(k, T.Dispatch(n, m))
  {
  }

  lemma ReadBrings(b: T.Talk, now: bool, poll: Poll)
    requires Flows(b, poll) && T.Enabled(b, T.Dispatch(Bytes(poll), Descriptors(poll)))
    requires var read := Between(HeldOf(b), now, poll).read; read != Zero && read != Failure
    ensures HeldOf(T.Receive(b, Bytes(poll), Descriptors(poll))) == Between(HeldOf(b), now, poll).h
  {
    if poll.Arrives? {
      assert b.wire[..Bytes(poll)] == poll.bytes;
    } else {
      NothingReceived(b);
    }
  }

  lemma ReadEnds(b: T.Talk, now: bool, poll: Poll)
    requires Flows(b, poll)
    ensures match Between(HeldOf(b), now, poll).read
            case Zero => Between(HeldOf(b), now, poll).h == HeldOf(b)
            case Failure =>
              Between(HeldOf(b), now, poll).h == if LosesIt(b, now, poll) then HeldOf(T.Do(b, T.Fail)) else HeldOf(b)
            case _ => true
  {
    if poll.Arrives? && poll.bytes == [] { assert b.lib.ring + poll.bytes == b.lib.ring; }
  }

  lemma {:induction false} ReadIsRun(k: T.Talk, count: int, now: bool, poll: Poll, second: Script, r: T.Talk)
    returns (acts: seq<T.Act>)
    requires k.waiting.None? && ReadLives(k, now, poll, second, r)
    ensures ActRun(k, acts, r) && r.waiting.None?
    ensures HeldOf(r) == AfterRead(count, Between(HeldOf(k), now, poll), second).h
    decreases ScriptSize(second), 3, 0
  {
    hide ActRun, ReadReturns, AfterRead, Between;
    var posts: seq<T.Act>, b: T.Talk :|
      Posting(k, posts, b) && Flows(b, poll) && ReadReturns(b, now, poll, second, r);
    var more := ReturnIsRun(b, count, now, poll, second, r);
    ActRunOn(k, posts, b, more, r);
    acts := posts + more;
  }

  lemma {:induction false} ReturnIsRun(b: T.Talk, count: int, now: bool, poll: Poll, second: Script, r: T.Talk)
    returns (acts: seq<T.Act>)
    requires b.waiting.None? && Flows(b, poll) && ReadReturns(b, now, poll, second, r)
    ensures ActRun(b, acts, r) && r.waiting.None?
    ensures HeldOf(r) == AfterRead(count, Between(HeldOf(b), now, poll), second).h
    decreases ScriptSize(second), 2, 1
  {
    hide ActRun, HalfLives, AfterHalf, Between;
    ReadEnds(b, now, poll);
    match Between(HeldOf(b), now, poll).read
    case Zero => acts := NoAct(b);
    case Failure =>
      if LosesIt(b, now, poll) {
        OneAct(b, T.Fail);
        acts := [T.Fail];
      } else {
        acts := NoAct(b);
      }
    case _ =>
      HalfIsEnabled(b, Bytes(poll), Descriptors(poll), second, r);
      acts := HalfIsRun(b, Bytes(poll), Descriptors(poll), second, r);
      ReadBrings(b, now, poll);
  }

  // So is dispatch, with listeners that call back in either half.
  lemma {:induction false} DispatchIsRun(k: T.Talk, immediate: bool, poll: Poll, first: Script, second: Script,
                                         r: T.Talk)
    returns (acts: seq<T.Act>)
    requires k.waiting.None? && DispatchLives(k, immediate, poll, first, second, r)
    ensures ActRun(k, acts, r) && r.waiting.None?
    ensures HeldOf(r) == AfterDispatch(HeldOf(k), immediate, poll, first, second).h
    decreases ScriptSize(first) + ScriptSize(second), 4, 0
  {
    hide ActRun, HalfLives, ReadLives, AfterHalf, AfterRead, Between;
    if k.lib.error {
      acts := NoAct(k);
      return;
    }
    var count := AfterHalf(HeldOf(k), first).count;
    var a: T.Talk :|
      && HalfLives(k, 0, 0, first, a)
      && if count == -1 then r == a else ReadLives(a, count > 0 || immediate, poll, second, r);
    acts := HalfIsRun(k, 0, 0, first, a);
    NothingReceived(k);
    if count != -1 {
      var more := ReadIsRun(a, count, count > 0 || immediate, poll, second, r);
      ActRunOn(k, acts, a, more, r);
      acts := acts + more;
    }
  }

  lemma {:induction false} ActRunSound(k: T.Talk, acts: seq<T.Act>, r: T.Talk)
    requires T.Sound(k) && ActRun(k, acts, r)
    ensures T.Sound(r)
    decreases |acts|
  {
    if acts != [] {
      T.ActSound(k, acts[0]);
      ActRunSound(T.Do(k, acts[0]), acts[1..], r);
    }
  }

  // So the books of the connection stay in order whatever an application does with the backend, and
  // its listeners do with it in turn.
  lemma UsesAreSound(k: T.Talk, uses: Uses, r: T.Talk)
    requires T.Sound(k) && k.waiting.None? && UsesLive(k, uses, r)
    ensures T.Sound(r) && HeldOf(r) == AfterUses(HeldOf(k), uses)
  {
    var acts := UsesAreRun(k, uses, r);
    ActRunSound(k, acts, r);
  }

  // A listener that does not call back can always go on.
  lemma {:induction false} QuietLives(k: T.Talk) returns (r: T.Talk)
    requires k.waiting.None? && k.lib.lists != []
    ensures ListLives(k, Quiet, r)
    decreases |if k.lib.lists == [] then [] else k.lib.lists[0]|
  {
    if k.lib.lists[0] == [] {
      r := T.Do(k, T.ListenersDone);
    } else {
      r := QuietLives(T.Do(k, T.RunListener));
    }
  }

  // ---------------------------------------------------------------- open_seat

  ghost predicate OpenLives(k: T.Talk, flushed: bool, polls: seq<Poll>, script: Script, r: T.Talk) {
    if !flushed then r == T.Begin(k, OpenSeatReq, false)
    else exists beats: seq<Beat>, m: T.Talk ::
      && Polls(beats) == polls && Waits(T.Begin(k, OpenSeatReq, true), 0, 0, beats, false, m)
      && Opens(m, WithSeat(HeldOf(k), true, polls), script, r)
  }

  // It runs the listener if it got the seat, and destroys the backend otherwise.
  ghost predicate Opens(m: T.Talk, o: Start, script: Script, r: T.Talk) {
    if o.ok then ListLives(m, script, r) else if o.verdict == Abandoned then r == T.Do(m, T.Fail) else r == m
  }

  lemma OpenSeatIsRun(k: T.Talk, flushed: bool, polls: seq<Poll>, script: Script, r: T.Talk) returns (acts: seq<T.Act>)
    requires k.waiting.None? && !k.lib.error && OpenLives(k, flushed, polls, script, r)
    ensures ActRun(k, acts, r)
    ensures var o := WithSeat(HeldOf(k), flushed, polls); HeldOf(r) == if o.ok then AfterEvents(o.h, script) else o.h
  {
    hide ActRun, Await, TakeReply, Waits, ListLives, AfterList;
    if !flushed {
      OneAct(k, T.Call(OpenSeatReq, false));
      return [T.Call(OpenSeatReq, false)];
    }
    var o := WithSeat(HeldOf(k), true, polls);
    var beats: seq<Beat>, m: T.Talk :|
      && Polls(beats) == polls && Waits(T.Begin(k, OpenSeatReq, true), 0, 0, beats, false, m)
      && Opens(m, o, script, r);
    acts := WaitIsRun(k, OpenSeatReq, beats, false, m);
    if o.ok {
      var more := ListIsRun(m, script, r);
      ActRunOn(k, acts, m, more, r);
      acts := acts + more;
    } else if o.verdict == Abandoned {
      OneAct(m, T.Fail);
      ActRunOn(k, acts, m, [T.Fail], r);
      acts := acts + [T.Fail];
    }
  }
}
