// The event loop of seatd/poller.c: a live list of event sources and a cached array of pollfds that
// has to agree with it, while callbacks add, update and destroy sources.
module Poller {
  import opened Options

  // EVENT_* and POLL*: the same four conditions.
  datatype Mask = Mask(readable: bool, writable: bool, error: bool, hangup: bool)

  const NONE := Mask(false, false, false, false)

  // event_mask_to_poll_mask
  function ToPoll(m: Mask): Mask {
    Mask(m.readable, m.writable, false, false)
  }

  datatype PollFd = PollFd(fd: int, events: Mask, revents: Mask)

  // An event_source_fd; `id` stands for its address and is never used again.
  datatype Source = Source(id: nat, fd: int, mask: Mask, killed: bool, idx: int)

  // History: what happened to sources, and whose callback ran.
  datatype Entry =
    | Added(id: nat, fd: int, mask: Mask)
    | Updated(id: nat, mask: Mask)
    | Killed(id: nat)
    | Called(id: nat, fd: int, mask: Mask)

  // What a callback does to the poller.
  datatype Act = Add(fd: int, mask: Mask) | Destroy(id: nat) | Update(id: nat, mask: Mask)

  // ---------------------------------------------------------------- what is being watched

  datatype Watch = Watch(fd: int, mask: Mask)

  // What a source that was added and not destroyed is to be polled for, by the history.
  function WatchOf(log: seq<Entry>, id: nat): Option<Watch> {
    if log == [] then None
    else
      var e, before := log[|log| - 1], WatchOf(log[..|log| - 1], id);
      if e.id != id then before
      else match e
        case Added(_, fd, mask) => Some(Watch(fd, mask))
        case Updated(_, mask) => if before.Some? then Some(before.value.(mask := mask)) else None
        case Killed(_) => None
        case Called(_, _, _) => before
  }

  lemma WatchMore(log: seq<Entry>, e: Entry, id: nat)
    ensures WatchOf(log + [e], id) ==
            if e.id != id then WatchOf(log, id)
            else match e
              case Added(_, fd, mask) => Some(Watch(fd, mask))
              case Updated(_, mask) =>
                if WatchOf(log, id).Some? then Some(WatchOf(log, id).value.(mask := mask)) else None
              case Killed(_) => None
              case Called(_, _, _) => WatchOf(log, id)
  {
    assert (log + [e])[..|log|] == log;
  }

  function WatchIn(s: Source): Option<Watch> {
    if s.killed then None else Some(Watch(s.fd, s.mask))
  }

  // The list has exactly what the history says.
  ghost predicate Registered(log: seq<Entry>, sources: seq<Source>) {
    && (forall i :: 0 <= i < |sources| ==> WatchOf(log, sources[i].id) == WatchIn(sources[i]))
    && (forall id: nat :: WatchOf(log, id).Some? ==> exists i :: 0 <= i < |sources| && sources[i].id == id)
  }

  // ---------------------------------------------------------------- the invariant

  function Live(sources: seq<Source>): (r: seq<Source>)
    ensures |r| <= |sources|
  {
    if sources == [] then [] else LiveIn(sources[0]) + Live(sources[1..])
  }

  function LiveIn(s: Source): seq<Source> {
    if s.killed then [] else [s]
  }

  // Every source has its own number, and all of them were given out.
  predicate Numbered(sources: seq<Source>, nextId: nat) {
    && (forall i :: 0 <= i < |sources| ==> sources[i].id < nextId)
    && (forall i, j :: 0 <= i < j < |sources| ==> sources[i].id != sources[j].id)
  }

  // An index is that of the source's own pollfd, even while the cache is out of date.
  predicate Indexed(sources: seq<Source>, fds: seq<PollFd>) {
    forall i :: 0 <= i < |sources| && sources[i].idx != -1 ==>
      1 <= sources[i].idx < |fds| && fds[sources[i].idx].fd == sources[i].fd
  }

  // The kernel is asked whether the descriptor can be read or written; errors it reports unasked.
  predicate AsksFor(p: PollFd, readable: bool, writable: bool) {
    p.events.readable == readable && p.events.writable == writable && !p.events.error && !p.events.hangup
  }

  // The cache lists exactly the live sources, in order, with their masks, behind the signal pipe.
  predicate Agrees(sources: seq<Source>, fds: seq<PollFd>, count: nat) {
    && count == 1 + |sources| <= |fds|
    && forall i :: 0 <= i < |sources| ==>
         var s := sources[i];
         !s.killed && s.idx == i + 1 && fds[s.idx].fd == s.fd && AsksFor(fds[s.idx], s.mask.readable, s.mask.writable)
  }

  // No callback runs for a source that was destroyed before, and no such source is live.
  predicate Quiet(log: seq<Entry>, sources: seq<Source>, nextId: nat) {
    && (forall i :: 0 <= i < |log| ==> log[i].id < nextId)
    && (forall i, j :: 0 <= i < j < |log| && log[i].Killed? && log[j].Called? ==> log[i].id != log[j].id)
    && (forall i, k :: 0 <= i < |log| && log[i].Killed? && 0 <= k < |sources| && !sources[k].killed ==>
        log[i].id != sources[k].id)
  }

  // ---------------------------------------------------------------- lists

  lemma {:induction false} LiveConcat(a: seq<Source>, b: seq<Source>)
    ensures Live(a + b) == Live(a) + Live(b)
  {
    if a == [] {
      assert a + b == b;
    } else {
      LiveConcat(a[1..], b);
      Associative(LiveIn(a[0]), Live(a[1..]), Live(b));
      assert (a + b)[1..] == a[1..] + b;
    }
  }

  lemma LiveOne(s: Source)
    ensures Live([s]) == LiveIn(s)
  {
    assert [s][1..] == [];
  }

  // Changing one source changes the number of live ones by what changed about it.
  lemma LiveUpdate(sources: seq<Source>, i: nat, s: Source)
    requires i < |sources|
    ensures |Live(sources[i := s])| - |Live([s])| == |Live(sources)| - |Live([sources[i]])|
  {
    var a, b := sources[..i], sources[i + 1..];
    assert sources == a + ([sources[i]] + b);
    assert sources[i := s] == a + ([s] + b);
    LiveConcat(a, [sources[i]] + b);
    LiveConcat(a, [s] + b);
    LiveConcat([sources[i]], b);
    LiveConcat([s], b);
  }

  lemma {:induction false} LiveMembers(sources: seq<Source>)
    ensures forall k :: 0 <= k < |Live(sources)| ==> !Live(sources)[k].killed && Live(sources)[k] in sources
  {
    if sources != [] { LiveMembers(sources[1..]); }
  }

  lemma NumberedMore(s: Source, rest: seq<Source>, nextId: nat)
    requires Numbered(rest, nextId)
    ensures s.id < nextId && (forall k :: 0 <= k < |rest| ==> rest[k].id != s.id) ==> Numbered([s] + rest, nextId)
  {
  }

  lemma {:induction false} LiveNumbered(sources: seq<Source>, nextId: nat)
    requires Numbered(sources, nextId)
    ensures Numbered(Live(sources), nextId)
  {
    if sources != [] {
      LiveNumbered(sources[1..], nextId);
      LiveMembers(sources[1..]);
      NumberedMore(sources[0], Live(sources[1..]), nextId);
    }
  }

  lemma LiveQuiet(log: seq<Entry>, sources: seq<Source>, nextId: nat)
    requires Quiet(log, sources, nextId)
    ensures Quiet(log, Live(sources), nextId)
  {
    LiveMembers(sources);
  }

  // The same sources in the same order, up to their place in the cache.
  predicate Renumbered(a: seq<Source>, b: seq<Source>) {
    |a| == |b| && forall i :: 0 <= i < |a| ==> b[i] == a[i].(idx := i + 1)
  }

  lemma RenumberedKeeps(log: seq<Entry>, a: seq<Source>, b: seq<Source>, nextId: nat)
    requires Renumbered(a, b) && Numbered(a, nextId) && Quiet(log, a, nextId)
    ensures Numbered(b, nextId) && Quiet(log, b, nextId)
  {
  }

  // The first `i` sources are done: they are the first `i` live ones.
  predicate Halfway(sources: seq<Source>, live: seq<Source>, i: nat) {
    && i <= |sources| && i <= |live| && Live(sources[i..]) == live[i..]
    && forall j :: 0 <= j < i ==> sources[j] == live[j].(idx := j + 1) && !live[j].killed
  }

  lemma HalfwayDrop(sources: seq<Source>, live: seq<Source>, i: nat)
    requires Halfway(sources, live, i) && i < |sources| && sources[i].killed
    ensures Halfway(sources[..i] + sources[i + 1..], live, i)
  {
    var r := sources[..i] + sources[i + 1..];
    assert r[i..] == sources[i..][1..];
  }

  lemma HalfwayKeep(sources: seq<Source>, live: seq<Source>, i: nat)
    requires Halfway(sources, live, i) && i < |sources| && !sources[i].killed
    ensures i < |live| && live[i] == sources[i] && Halfway(sources[i := sources[i].(idx := i + 1)], live, i + 1)
  {
    var r := sources[i := sources[i].(idx := i + 1)];
    assert r[i + 1..] == sources[i..][1..];
    assert live[i..][1..] == live[i + 1..];
    assert live[i..][0] == sources[i];
  }

  lemma {:induction false} AllLive(sources: seq<Source>)
    requires forall i :: 0 <= i < |sources| ==> !sources[i].killed
    ensures Live(sources) == sources
  {
    if sources != [] { AllLive(sources[1..]); }
  }

  // ---------------------------------------------------------------- what callbacks may do

  predicate Same(a: Source, b: Source) {
    b.id == a.id && b.fd == a.fd && b.idx == a.idx && (a.killed ==> b.killed)
  }

  predicate Evolves(a: seq<Source>, b: seq<Source>) {
    |a| == |b| && forall i :: 0 <= i < |a| ==> Same(a[i], b[i])
  }

  predicate Unpolled(s: seq<Source>) {
    forall i :: 0 <= i < |s| ==> s[i].idx == -1
  }

  // Where the sources that were there from the beginning are now: new ones go to the front.
  function Rest(s: seq<Source>, n: nat): seq<Source> {
    if n <= |s| then s[|s| - n..] else s
  }

  // From `a` to `b` sources were only added in front, changed or marked as killed.
  predicate Follows(a: seq<Source>, b: seq<Source>) {
    |a| <= |b| && Evolves(a, Rest(b, |a|)) && Unpolled(b[..|b| - |a|])
  }

  lemma FollowsOn(a: seq<Source>, b: seq<Source>, c: seq<Source>)
    requires Follows(a, b) && Follows(b, c)
    ensures Follows(a, c) && Evolves(Rest(b, |a|), Rest(c, |a|))
  {
    var d, e := |c| - |b|, |b| - |a|;
    var now := Rest(c, |b|);
    assert Rest(c, |a|) == now[e..];
    forall i | 0 <= i < |a| ensures Same(a[i], now[e..][i]) && Same(Rest(b, |a|)[i], now[e..][i]) {
      assert Same(b[e + i], now[e + i]) && Rest(b, |a|)[i] == b[e + i];
    }
    forall j | 0 <= j < d + e ensures c[j].idx == -1 {
      if j >= d { assert Same(b[j - d], now[j - d]) && b[..e][j - d].idx == -1; } else { assert c[..d][j].idx == -1; }
    }
  }

  // The callbacks that ran, in order.
  function Calls(log: seq<Entry>): seq<Entry> {
    if log == [] then []
    else Calls(log[..|log| - 1]) + if log[|log| - 1].Called? then [log[|log| - 1]] else []
  }

  lemma OneMoreEntry(log: seq<Entry>, e: Entry)
    ensures Calls(log + [e]) == Calls(log) + if e.Called? then [e] else []
  {
    assert (log + [e])[..|log|] == log;
  }

  // A source whose callback is due: it was polled, it is ready and it is not destroyed.
  predicate Ready(s: Source, fds: seq<PollFd>) {
    s.idx != -1 && !s.killed && 0 <= s.idx < |fds| && fds[s.idx].revents != NONE
  }

  predicate Increasing(s: seq<nat>) {
    forall i, j :: 0 <= i < j < |s| ==> s[i] < s[j]
  }

  // What a callback is called with: the descriptor of its source, and what the kernel said about it.
  function CallFor(s: Source, fds: seq<PollFd>): Entry {
    Called(s.id, s.fd, if 0 <= s.idx < |fds| then fds[s.idx].revents else NONE)
  }

  function CallsOf(sources: seq<Source>, at: seq<nat>, fds: seq<PollFd>): (calls: seq<Entry>)
    requires forall i :: 0 <= i < |at| ==> at[i] < |sources|
    ensures |calls| == |at| && forall i :: 0 <= i < |at| ==> calls[i] == CallFor(sources[at[i]], fds)
  {
    seq(|at|, i requires 0 <= i < |at| => CallFor(sources[at[i]], fds))
  }

  // The first `done` of the sources `o` were visited, `now` is what has become of them, and the
  // callbacks of those at `called` ran: each of them was due, each ran once, in order, and one that
  // was due and did not run is destroyed.
  predicate Dispatched(o: seq<Source>, now: seq<Source>, fds: seq<PollFd>, done: nat, called: seq<nat>) {
    && Evolves(o, now) && done <= |o| && Increasing(called)
    && (forall i :: 0 <= i < |called| ==> called[i] < done && Ready(o[called[i]], fds))
    && (forall k :: 0 <= k < done && Ready(o[k], fds) && k !in called ==> now[k].killed)
  }

  lemma DispatchedOn(o: seq<Source>, now: seq<Source>, later: seq<Source>, fds: seq<PollFd>, done: nat,
                     called: seq<nat>)
    requires Dispatched(o, now, fds, done, called) && Evolves(now, later)
    ensures Dispatched(o, later, fds, done, called)
  {
    assert forall i :: 0 <= i < |o| ==> Same(now[i], later[i]);
  }

  // One more source is passed over, or called.
  lemma Visited(o: seq<Source>, now: seq<Source>, fds: seq<PollFd>, done: nat, called: seq<nat>)
    requires Dispatched(o, now, fds, done, called) && done < |o|
    ensures now[done].id == o[done].id
    ensures Dispatched(o, now, fds, done + 1, if Ready(now[done], fds) then called + [done] else called)
  {
    assert Same(o[done], now[done]);
    if Ready(now[done], fds) { CalledMore(o, now, fds, done, called); }
  }

  lemma CalledMore(o: seq<Source>, now: seq<Source>, fds: seq<PollFd>, done: nat, called: seq<nat>)
    requires Dispatched(o, now, fds, done, called) && done < |o| && Ready(o[done], fds)
    ensures Dispatched(o, now, fds, done + 1, called + [done])
  {
    var more := called + [done];
    assert more[|called|] == done;
    forall k | 0 <= k < done + 1 && Ready(o[k], fds) && k !in more ensures now[k].killed {
      assert k != done && k !in called;
    }
  }

  lemma OneMoreCall(sources: seq<Source>, at: seq<nat>, k: nat, fds: seq<PollFd>)
    requires k < |sources| && forall i :: 0 <= i < |at| ==> at[i] < |sources|
    ensures CallsOf(sources, at + [k], fds) == CallsOf(sources, at, fds) + [CallFor(sources[k], fds)]
  {
  }

  // How many of the `n` old sources are visited when `rest` sources are left.
  function Done(rest: nat, n: nat): nat {
    if rest >= n then 0 else n - rest
  }

  // One turn of the loop: the source with `rest - 1` others behind it, and then what its callback
  // did. Sources that were not there from the beginning were never polled.
  lemma NextVisit(o: seq<Source>, s: seq<Source>, t: seq<Source>, fds: seq<PollFd>, rest: nat, done: nat,
                  called: seq<nat>, hit: bool)
    returns (done2: nat, called2: seq<nat>)
    requires Follows(o, s) && Follows(s, t) && Dispatched(o, Rest(s, |o|), fds, done, called)
    requires 0 < rest <= |s| && done == Done(rest, |o|) && hit == Ready(s[|s| - rest], fds)
    ensures done2 == Done(rest - 1, |o|) && Follows(o, t) && Dispatched(o, Rest(t, |o|), fds, done2, called2)
    ensures CallsOf(o, called2, fds) == CallsOf(o, called, fds) + if hit then [CallFor(s[|s| - rest], fds)] else []
  {
    FollowsOn(o, s, t);
    done2, called2 := done, called;
    if rest <= |o| {
      assert Rest(s, |o|)[done] == s[|s| - rest];
      done2, called2 := VisitedOnce(o, Rest(s, |o|), fds, done, called, hit);
    } else {
      assert s[..|s| - |o|][|s| - rest].idx == -1;
    }
    DispatchedOn(o, Rest(s, |o|), Rest(t, |o|), fds, done2, called2);
  }

  lemma SameCall(o: seq<Source>, now: seq<Source>, fds: seq<PollFd>, k: nat)
    requires Evolves(o, now) && k < |o|
    ensures CallFor(now[k], fds) == CallFor(o[k], fds)
  {
    assert Same(o[k], now[k]);
  }

  lemma VisitedOnce(o: seq<Source>, now: seq<Source>, fds: seq<PollFd>, done: nat, called: seq<nat>, hit: bool)
    returns (done2: nat, called2: seq<nat>)
    requires Dispatched(o, now, fds, done, called) && done < |o| && hit == Ready(now[done], fds)
    ensures done2 == done + 1 && Dispatched(o, now, fds, done2, called2)
    ensures CallsOf(o, called2, fds) == CallsOf(o, called, fds) + if hit then [CallFor(now[done], fds)] else []
  {
    hide CallsOf, Ready;
    Visited(o, now, fds, done, called);
    SameCall(o, now, fds, done);
    if hit { OneMoreCall(o, called, done, fds); }
    done2, called2 := done + 1, if hit then called + [done] else called;
  }

  // A dispatch on its way, with `rest` sources left to visit.
  datatype Dispatching = Dispatching(o: seq<Source>, s: seq<Source>, fds: seq<PollFd>, rest: nat, done: nat,
                                     called: seq<nat>)

  ghost predicate Running(d: Dispatching) {
    && d.rest <= |d.s| && d.done == Done(d.rest, |d.o|)
    && Follows(d.o, d.s) && Dispatched(d.o, Rest(d.s, |d.o|), d.fds, d.done, d.called)
  }

  ghost function Ran(d: Dispatching): seq<Entry>
    requires Running(d)
  {
    CallsOf(d.o, d.called, d.fds)
  }

  lemma StartRunning(o: seq<Source>, s: seq<Source>, fds: seq<PollFd>)
    requires Follows(o, s)
    ensures var d := Dispatching(o, s, fds, |s|, 0, []); Running(d) && Ran(d) == []
  {
  }

  lemma InRange(d: Dispatching)
    requires Running(d)
    ensures d.rest <= |d.s|
  {
  }

  // The callbacks that ran between two points of it.
  ghost function More(d: Dispatching, e: Dispatching): seq<Entry>
    requires Running(d) && Running(e)
  {
    if |Ran(d)| <= |Ran(e)| then Ran(e)[|Ran(d)|..] else []
  }

  lemma KeepRunning(d: Dispatching, t: seq<Source>, hit: bool) returns (d2: Dispatching)
    requires Running(d) && d.rest > 0 && Follows(d.s, t) && hit == Ready(d.s[|d.s| - d.rest], d.fds)
    ensures Running(d2) && d2.o == d.o && d2.s == t && d2.fds == d.fds && d2.rest == d.rest - 1
    ensures More(d, d2) == if hit then [CallFor(d.s[|d.s| - d.rest], d.fds)] else []
    ensures Ran(d2) == Ran(d) + More(d, d2)
  {
    var done, called := NextVisit(d.o, d.s, t, d.fds, d.rest, d.done, d.called, hit);
    d2 := d.(s := t, rest := d.rest - 1, done := done, called := called);
  }

  // ---------------------------------------------------------------- the state as a value

  datatype State = State(sources: seq<Source>, fds: seq<PollFd>, count: nat, dirty: bool, nextId: nat, log: seq<Entry>)

  ghost predicate Ok(st: State) {
    && Numbered(st.sources, st.nextId) && st.count == 1 + |Live(st.sources)|
    && Indexed(st.sources, st.fds)
    && (!st.dirty ==> Agrees(st.sources, st.fds, st.count))
    && Quiet(st.log, st.sources, st.nextId) && Registered(st.log, st.sources)
  }

  // poller_add_fd
  function AfterAdd(st: State, fd: int, mask: Mask): State {
    st.(sources := [Source(st.nextId, fd, mask, false, -1)] + st.sources, count := st.count + 1, dirty := true,
        nextId := st.nextId + 1, log := st.log + [Added(st.nextId, fd, mask)])
  }

  // event_source_fd_destroy
  function AfterKill(st: State, i: nat): State
    requires i < |st.sources| && st.count > 0
  {
    st.(sources := st.sources[i := st.sources[i].(killed := true)], count := st.count - 1, dirty := true,
        log := st.log + [Killed(st.sources[i].id)])
  }

  // event_source_fd_update
  function AfterUpdate(st: State, i: nat, mask: Mask): State
    requires i < |st.sources|
  {
    st.(sources := st.sources[i := st.sources[i].(mask := mask)], dirty := true,
        log := st.log + [Updated(st.sources[i].id, mask)])
  }

  // What an act of a callback leaves in the history: only a source that is watched can be destroyed or
  // changed.
  function Does(log: seq<Entry>, nextId: nat, act: Act): seq<Entry> {
    match act
    case Add(fd, mask) => [Added(nextId, fd, mask)]
    case Destroy(id) => if WatchOf(log, id).Some? then [Killed(id)] else []
    case Update(id, mask) => if WatchOf(log, id).Some? then [Updated(id, mask)] else []
  }

  datatype Told = Told(log: seq<Entry>, nextId: nat)

  function DoesAll(log: seq<Entry>, nextId: nat, acts: seq<Act>): Told {
    if acts == [] then Told(log, nextId)
    else
      var t, act := DoesAll(log, nextId, acts[..|acts| - 1]), acts[|acts| - 1];
      Told(t.log + Does(t.log, t.nextId, act), if act.Add? then t.nextId + 1 else t.nextId)
  }

  lemma DoesNothing(log: seq<Entry>, nextId: nat, acts: seq<Act>)
    ensures DoesAll(log, nextId, acts[..0]) == Told(log, nextId)
  {
  }

  lemma DoesMore(log: seq<Entry>, nextId: nat, acts: seq<Act>, k: nat)
    requires k < |acts|
    ensures var t := DoesAll(log, nextId, acts[..k]);
            DoesAll(log, nextId, acts[..k + 1]) ==
              Told(t.log + Does(t.log, t.nextId, acts[k]), if acts[k].Add? then t.nextId + 1 else t.nextId)
  {
    assert acts[..k + 1][..k] == acts[..k];
  }

  lemma IsWatched(st: State, id: nat, i: nat)
    requires Ok(st) && i <= |st.sources| && (i < |st.sources| ==> st.sources[i].id == id && !st.sources[i].killed)
    requires i == |st.sources| ==> forall j :: 0 <= j < |st.sources| ==> st.sources[j].id != id || st.sources[j].killed
    ensures WatchOf(st.log, id).Some? <==> i < |st.sources|
  {
    hide WatchOf;
    if WatchOf(st.log, id).Some? {
      var j :| 0 <= j < |st.sources| && st.sources[j].id == id;
    }
  }

  // From `a` to `b` no callback ran, and the sources are those that may be there afterwards.
  ghost predicate Reacts(a: State, b: State) {
    Follows(a.sources, b.sources) && b.fds == a.fds && Calls(b.log) == Calls(a.log)
  }

  lemma SameReacts(a: State)
    ensures Reacts(a, a)
  {
  }

  lemma ReactsOn(a: State, b: State, c: State)
    requires Reacts(a, b) && Reacts(b, c)
    ensures Reacts(a, c)
  {
    FollowsOn(a.sources, b.sources, c.sources);
  }

  lemma NumberedLater(sources: seq<Source>, nextId: nat)
    requires Numbered(sources, nextId)
    ensures Numbered(sources, nextId + 1)
  {
  }

  lemma QuietAdd(log: seq<Entry>, sources: seq<Source>, nextId: nat, s: Source)
    requires Quiet(log, sources, nextId) && s.id == nextId
    ensures Quiet(log + [Added(nextId, s.fd, s.mask)], [s] + sources, nextId + 1)
  {
  }

  lemma AddedOk(st: State, fd: int, mask: Mask)
    requires Ok(st)
    ensures Ok(AfterAdd(st, fd, mask))
  {
    hide Live, Quiet, Registered, WatchOf;
    var s := Source(st.nextId, fd, mask, false, -1);
    LiveAdd(s, st.sources);
    NumberedLater(st.sources, st.nextId);
    NumberedMore(s, st.sources, st.nextId + 1);
    QuietAdd(st.log, st.sources, st.nextId, s);
    RegisteredAdd(st, s);
  }

  lemma RegisteredAdd(st: State, s: Source)
    requires Numbered(st.sources, st.nextId) && Registered(st.log, st.sources) && s.id == st.nextId && !s.killed
    ensures Registered(st.log + [Added(s.id, s.fd, s.mask)], [s] + st.sources)
  {
    var e := Added(s.id, s.fd, s.mask);
    var log, all := st.log + [e], [s] + st.sources;
    forall i | 0 <= i < |all| ensures WatchOf(log, all[i].id) == WatchIn(all[i]) { WatchMore(st.log, e, all[i].id); }
    forall id: nat | WatchOf(log, id).Some? ensures exists i :: 0 <= i < |all| && all[i].id == id {
      WatchMore(st.log, e, id);
      if id == s.id {
        assert all[0].id == id;
      } else {
        var i :| 0 <= i < |st.sources| && st.sources[i].id == id;
        assert all[i + 1].id == id;
      }
    }
  }

  // The same for an entry about a source that is there.
  lemma RegisteredSet(st: State, i: nat, s: Source, e: Entry)
    requires Numbered(st.sources, st.nextId) && Registered(st.log, st.sources) && i < |st.sources|
    requires s.id == st.sources[i].id == e.id && WatchOf(st.log + [e], s.id) == WatchIn(s)
    ensures Registered(st.log + [e], st.sources[i := s])
  {
    var log, all := st.log + [e], st.sources[i := s];
    forall j | 0 <= j < |all| ensures WatchOf(log, all[j].id) == WatchIn(all[j]) { WatchMore(st.log, e, all[j].id); }
    forall id: nat | WatchOf(log, id).Some? ensures exists j :: 0 <= j < |all| && all[j].id == id {
      WatchMore(st.log, e, id);
      if id == s.id {
        assert all[i].id == id;
      } else {
        var j :| 0 <= j < |st.sources| && st.sources[j].id == id;
        assert all[j].id == id;
      }
    }
  }

  lemma LiveAdd(s: Source, sources: seq<Source>)
    requires !s.killed
    ensures |Live([s] + sources)| == 1 + |Live(sources)|
  {
    assert ([s] + sources)[1..] == sources;
  }

  lemma AddReacts(st: State, fd: int, mask: Mask)
    ensures Reacts(st, AfterAdd(st, fd, mask))
  {
    OneMoreEntry(st.log, Added(st.nextId, fd, mask));
  }

  lemma QuietKill(log: seq<Entry>, sources: seq<Source>, nextId: nat, i: nat)
    requires Quiet(log, sources, nextId) && Numbered(sources, nextId) && i < |sources|
    ensures Quiet(log + [Killed(sources[i].id)], sources[i := sources[i].(killed := true)], nextId)
  {
  }

  lemma KilledOk(st: State, i: nat)
    requires Ok(st) && i < |st.sources| && !st.sources[i].killed
    ensures st.count > 0 && Ok(AfterKill(st, i)) && Reacts(st, AfterKill(st, i))
  {
    hide Live, Quiet, Registered, WatchOf, Calls;
    var s := st.sources[i].(killed := true);
    LiveUpdate(st.sources, i, s);
    LiveOne(s);
    LiveOne(st.sources[i]);
    QuietKill(st.log, st.sources, st.nextId, i);
    OneMoreEntry(st.log, Killed(s.id));
    WatchMore(st.log, Killed(s.id), s.id);
    RegisteredSet(st, i, s, Killed(s.id));
  }

  lemma MaskedOk(st: State, i: nat, mask: Mask)
    requires Ok(st) && i < |st.sources|
    ensures Ok(AfterUpdate(st, i, mask)) && Reacts(st, AfterUpdate(st, i, mask))
  {
    hide Live, Quiet, WatchOf, Calls;
    var s := st.sources[i].(mask := mask);
    LiveUpdate(st.sources, i, s);
    LiveOne(s);
    LiveOne(st.sources[i]);
    QuietUpdate(st.log, st.sources, st.nextId, i, mask);
    OneMoreEntry(st.log, Updated(s.id, mask));
    WatchMore(st.log, Updated(s.id, mask), s.id);
    RegisteredSet(st, i, s, Updated(s.id, mask));
  }

  lemma QuietUpdate(log: seq<Entry>, sources: seq<Source>, nextId: nat, i: nat, mask: Mask)
    requires Quiet(log, sources, nextId) && Numbered(sources, nextId) && i < |sources|
    ensures Quiet(log + [Updated(sources[i].id, mask)], sources[i := sources[i].(mask := mask)], nextId)
  {
  }

  lemma QuietCall(log: seq<Entry>, sources: seq<Source>, nextId: nat, i: nat, fd: int, mask: Mask)
    requires Quiet(log, sources, nextId) && i < |sources| && !sources[i].killed && sources[i].id < nextId
    ensures Quiet(log + [Called(sources[i].id, fd, mask)], sources, nextId)
  {
  }

  lemma CalledOk(st: State, i: nat, mask: Mask)
    requires Ok(st) && i < |st.sources| && Ready(st.sources[i], st.fds)
    ensures var e := Called(st.sources[i].id, st.sources[i].fd, mask);
            Ok(st.(log := st.log + [e])) && Calls(st.log + [e]) == Calls(st.log) + [e]
    ensures st.fds[st.sources[i].idx].fd == st.sources[i].fd
  {
    var e := Called(st.sources[i].id, st.sources[i].fd, mask);
    QuietCall(st.log, st.sources, st.nextId, i, st.sources[i].fd, mask);
    OneMoreEntry(st.log, e);
    WatchMore(st.log, e, st.sources[i].id);
    RegisteredSet(st, i, st.sources[i], e);
    assert st.sources[i := st.sources[i]] == st.sources;
  }

  // The index assertion of dispatch, and whose pollfd it is.
  lemma IndexIsOwn(st: State, i: nat)
    requires Ok(st) && i < |st.sources| && st.sources[i].idx != -1
    ensures 1 <= st.sources[i].idx < |st.fds| && st.fds[st.sources[i].idx].fd == st.sources[i].fd
  {
  }

  // Dropping the destroyed sources and numbering the others makes the cache agree.
  lemma RebuiltOk(st: State, r: State)
    requires Ok(st) && Renumbered(Live(st.sources), r.sources) && Agrees(r.sources, r.fds, r.count)
    requires r == st.(sources := r.sources, fds := r.fds, dirty := false)
    ensures Ok(r)
  {
    LiveNumbered(st.sources, st.nextId);
    LiveQuiet(st.log, st.sources, st.nextId);
    LiveMembers(st.sources);
    RenumberedKeeps(st.log, Live(st.sources), r.sources, st.nextId);
    AllLive(r.sources);
    RegisteredLive(st.log, st.sources, r.sources);
  }

  lemma RegisteredLive(log: seq<Entry>, sources: seq<Source>, r: seq<Source>)
    requires Registered(log, sources) && Renumbered(Live(sources), r)
    ensures Registered(log, r)
  {
    var live := Live(sources);
    LiveMembers(sources);
    forall i | 0 <= i < |r| ensures WatchOf(log, r[i].id) == WatchIn(r[i]) {
      var j :| 0 <= j < |sources| && sources[j] == live[i];
    }
    forall id: nat | WatchOf(log, id).Some? ensures exists i :: 0 <= i < |r| && r[i].id == id {
      var j :| 0 <= j < |sources| && sources[j].id == id;
      LiveHas(sources, j);
      var i :| 0 <= i < |live| && live[i] == sources[j];
      assert r[i].id == id;
    }
  }

  lemma {:induction false} LiveHas(sources: seq<Source>, j: nat)
    requires j < |sources| && !sources[j].killed
    ensures sources[j] in Live(sources)
  {
    if j > 0 {
      LiveHas(sources[1..], j - 1);
    } else {
      assert LiveIn(sources[0])[0] == sources[0];
    }
  }

  function Answer(ready: seq<Mask>, i: nat): Mask {
    if i < |ready| then ready[i] else NONE
  }

  // Every source was polled, and what the kernel said about its entry is there.
  predicate Reported(sources: seq<Source>, fds: seq<PollFd>, ready: seq<Mask>) {
    forall i :: 0 <= i < |sources| ==>
      var s := sources[i];
      && !s.killed && 0 < s.idx < |fds| && fds[s.idx].fd == s.fd
      && AsksFor(fds[s.idx], s.mask.readable, s.mask.writable) && fds[s.idx].revents == Answer(ready, s.idx)
  }

  // What the callbacks are called with is what the kernel said.
  lemma AsReported(sources: seq<Source>, now: seq<Source>, called: seq<nat>, fds: seq<PollFd>, ready: seq<Mask>)
    requires Reported(sources, fds, ready) && Dispatched(sources, now, fds, |sources|, called)
    ensures forall k :: 0 <= k < |called| ==>
              var s := sources[called[k]]; CallsOf(sources, called, fds)[k] == Called(s.id, s.fd, Answer(ready, s.idx))
  {
  }

  lemma IsRegistered(st: State)
    requires Ok(st)
    ensures Registered(st.log, st.sources)
  {
  }

  lemma AgreesHasRoom(st: State)
    requires Ok(st) && !st.dirty
    ensures st.count == 1 + |st.sources| <= |st.fds| && Agrees(st.sources, st.fds, st.count)
  {
  }

  // The kernel only touches revents.
  predicate Polled(a: seq<PollFd>, b: seq<PollFd>) {
    |a| == |b| && forall i :: 0 <= i < |a| ==> b[i].fd == a[i].fd && b[i].events == a[i].events
  }

  lemma PolledOk(st: State, fds: seq<PollFd>)
    requires Ok(st) && Polled(st.fds, fds)
    ensures Ok(st.(fds := fds))
  {
  }

  class PollLoop {
    var sources: seq<Source>
    var pollfds: array<PollFd>
    var count: nat       // fd_event_sources
    var dirty: bool
    const signalFd: int

    var nextId: nat
    var log: seq<Entry>
    var wakes: nat       // history: how often signal handlers were run

    ghost function View(): State
      reads this, pollfds
    {
      State(sources, pollfds[..], count, dirty, nextId, log)
    }

    ghost predicate Valid()
      reads this, pollfds
    {
      Ok(View()) && (!dirty ==> Piped())
    }

    // The first entry is the signal pipe, to be read.
    ghost predicate Piped()
      reads this, pollfds
    {
      pollfds.Length > 0 && pollfds[0].fd == signalFd && AsksFor(pollfds[0], true, false)
    }

    // poller_init
    constructor (signalFd: int)
      ensures Valid() && sources == [] && count == 1 && dirty && log == [] && wakes == 0
    {
      this.signalFd := signalFd;
      sources, count, dirty, nextId, log, wakes := [], 1, true, 0, [], 0;
      pollfds := new PollFd[0];
    }

    // poller_add_fd
    method AddFd(fd: int, mask: Mask)
      requires Valid()
      modifies this`sources, this`count, this`dirty, this`nextId, this`log
      ensures Valid() && View() == AfterAdd(old(View()), fd, mask)
      ensures log == old(log) + [Added(old(nextId), fd, mask)] && nextId == old(nextId) + 1
    {
      hide Ok;
      AddedOk(View(), fd, mask);
      sources, count, dirty := [Source(nextId, fd, mask, false, -1)] + sources, count + 1, true;
      nextId, log := nextId + 1, log + [Added(nextId, fd, mask)];
    }

    // event_source_fd_destroy
    method Kill(i: nat)
      requires Valid() && i < |sources| && !sources[i].killed
      modifies this`sources, this`count, this`dirty, this`log
      ensures Valid() && old(count) > 0 && View() == AfterKill(old(View()), i)
      ensures log == old(log) + [Killed(old(sources)[i].id)]
    {
      hide Ok;
      KilledOk(View(), i);
      count, dirty, log := count - 1, true, log + [Killed(sources[i].id)];
      sources := sources[i := sources[i].(killed := true)];
    }

    // event_source_fd_update
    method ChangeMask(i: nat, mask: Mask)
      requires Valid() && i < |sources|
      modifies this`sources, this`dirty, this`log
      ensures Valid() && View() == AfterUpdate(old(View()), i, mask)
      ensures log == old(log) + [Updated(old(sources)[i].id, mask)]
    {
      hide Ok;
      MaskedOk(View(), i, mask);
      log := log + [Updated(sources[i].id, mask)];
      sources, dirty := sources[i := sources[i].(mask := mask)], true;
    }

    // The realloc of regenerate.
    method Grow()
      modifies this`pollfds
      ensures pollfds.Length >= count && (pollfds == old(pollfds) || fresh(pollfds))
    {
      if count <= pollfds.Length { return; }
      var bigger := new PollFd[count](i => PollFd(-1, NONE, NONE));
      forall i | 0 <= i < pollfds.Length { bigger[i] := pollfds[i]; }
      pollfds := bigger;
    }

    // The loop of regenerate: destroyed sources are unlinked and freed, the others numbered.
    method Rebuild()
      requires count == 1 + |Live(sources)| && pollfds.Length >= count
      modifies this`sources, pollfds
      ensures Renumbered(Live(old(sources)), sources) && Agrees(sources, pollfds[..], count)
      ensures Piped()
    {
      hide Live;
      ghost var live := Live(sources);
      pollfds[0] := PollFd(signalFd, Mask(true, false, false, false), NONE);
      var i, idx := 0, 1;
      while i < |sources|
        invariant Halfway(sources, live, i) && idx == i + 1
        invariant forall j :: 1 <= j < idx ==> pollfds[j] == PollFd(live[j - 1].fd, ToPoll(live[j - 1].mask), NONE)
        invariant pollfds[0] == PollFd(signalFd, Mask(true, false, false, false), NONE)
        decreases |sources| - i
      {
        var s := sources[i];
        if s.killed {
          HalfwayDrop(sources, live, i);
          sources := sources[..i] + sources[i + 1..];
        } else {
          HalfwayKeep(sources, live, i);
          sources := sources[i := s.(idx := idx)];
          pollfds[idx] := PollFd(s.fd, ToPoll(s.mask), NONE);
          i, idx := i + 1, idx + 1;
        }
      }
    }

    // regenerate, and the end of the dirty state in poller_poll
    method Regenerate()
      requires Valid()
      modifies this`sources, this`pollfds, this`dirty, pollfds
      ensures Valid() && !dirty && Renumbered(Live(old(sources)), sources)
      ensures pollfds == old(pollfds) || fresh(pollfds)
    {
      ghost var st := View();
      Grow();
      Rebuild();
      dirty := false;
      RebuiltOk(st, View());
    }

    method Find(id: nat) returns (i: nat)
      ensures i <= |sources| && (i < |sources| ==> sources[i].id == id && !sources[i].killed)
      ensures i == |sources| ==> forall j :: 0 <= j < |sources| ==> sources[j].id != id || sources[j].killed
    {
      i := 0;
      while i < |sources| && (sources[i].id != id || sources[i].killed)
        invariant i <= |sources| && forall j :: 0 <= j < i ==> sources[j].id != id || sources[j].killed
      {
        i := i + 1;
      }
    }

    // One thing a callback does. It cannot destroy or update a source that is destroyed already:
    // nobody holds on to one.
    method Perform(act: Act)
      requires Valid()
      modifies this`sources, this`count, this`dirty, this`nextId, this`log
      ensures nextId == if act.Add? then old(nextId) + 1 else old(nextId)
      ensures Valid() && Reacts(old(View()), View()) && log == old(log) + Does(old(log), old(nextId), act)
    {
      hide Ok;
      ghost var st := View();
      match act
      case Add(fd, mask) =>
        AddReacts(st, fd, mask);
        AddFd(fd, mask);
      case Destroy(id) =>
        var i := Find(id);
        IsWatched(st, id, i);
        if i == |sources| { SameReacts(st); return; }
        KilledOk(st, i);
        Kill(i);
      case Update(id, mask) =>
        var i := Find(id);
        IsWatched(st, id, i);
        if i == |sources| { SameReacts(st); return; }
        MaskedOk(st, i, mask);
        ChangeMask(i, mask);
    }

    method PerformAll(acts: seq<Act>)
      requires Valid()
      modifies this`sources, this`count, this`dirty, this`nextId, this`log
      ensures Valid() && Reacts(old(View()), View()) && log == DoesAll(old(log), old(nextId), acts).log
    {
      hide Ok, Reacts, Does, DoesAll;
      SameReacts(View());
      DoesNothing(log, nextId, acts);
      for k := 0 to |acts|
        invariant Valid() && Reacts(old(View()), View())
        invariant Told(log, nextId) == DoesAll(old(log), old(nextId), acts[..k])
      {
        ghost var st := View();
        DoesMore(old(log), old(nextId), acts, k);
        Perform(acts[k]);
        ReactsOn(old(View()), st, View());
      }
      assert acts[..|acts|] == acts;
    }

    // A callback runs.
    method Call(i: nat, acts: seq<Act>)
      requires Valid() && i < |sources| && Ready(sources[i], pollfds[..])
      modifies this`sources, this`count, this`dirty, this`nextId, this`log
      ensures Valid() && Follows(old(sources), sources)
      ensures Calls(log) == Calls(old(log)) + [CallFor(old(sources)[i], pollfds[..])]
      ensures log == DoesAll(old(log) + [CallFor(old(sources)[i], pollfds[..])], old(nextId), acts).log
    {
      hide Ok;
      IndexIsOwn(View(), i);
      var p := pollfds[sources[i].idx];
      CalledOk(View(), i, p.revents);
      log := log + [Called(sources[i].id, p.fd, p.revents)];
      PerformAll(acts);
    }

    // One turn of the loop of dispatch, at the source that has `rest - 1` sources behind it.
    method Visit(i: nat, acts: seq<Act>) returns (hit: bool)
      requires Valid() && i < |sources|
      modifies this`sources, this`count, this`dirty, this`nextId, this`log
      ensures Valid() && Follows(old(sources), sources) && hit == Ready(old(sources)[i], pollfds[..])
      ensures Calls(log) == Calls(old(log)) + if hit then [CallFor(old(sources)[i], pollfds[..])] else []
    {
      var s := sources[i];
      SameReacts(View());
      if s.idx == -1 || s.killed { return false; }
      IndexIsOwn(View(), i);
      if pollfds[s.idx].revents == NONE { return false; }
      Call(i, acts);
      return true;
    }

    // The dispatch is where the poller is.
    ghost predicate At(d: Dispatching, rest: nat)
      reads this, pollfds
    {
      Valid() && Running(d) && d.s == sources && d.fds == pollfds[..] && d.rest == rest
    }

    method VisitNext(rest: nat, acts: seq<Act>, ghost d: Dispatching) returns (hit: bool, ghost e: Dispatching)
      requires At(d, rest) && rest > 0
      modifies this`sources, this`count, this`dirty, this`nextId, this`log
      ensures At(e, rest - 1) && e.o == d.o
      ensures Calls(log) == Calls(old(log)) + More(d, e) && Ran(e) == Ran(d) + More(d, e)
    {
      hide Ok, Running, Dispatched, Follows, CallsOf, Calls;
      InRange(d);
      hit := Visit(|sources| - rest, acts);
      e := KeepRunning(d, sources, hit);
    }

    // The loop of dispatch; `reactions` lists what the callbacks do, in the order in which they run.
    method VisitAll(reactions: seq<seq<Act>>, ghost d: Dispatching) returns (ghost e: Dispatching)
      requires At(d, |sources|) && Ran(d) == []
      modifies this`sources, this`count, this`dirty, this`nextId, this`log
      ensures At(e, 0) && e.o == d.o && Calls(log) == Calls(old(log)) + Ran(e)
    {
      e := d;
      var rest: nat, calls: nat := |sources|, 0;
      while rest > 0
        invariant At(e, rest) && e.o == d.o && Calls(log) == Calls(old(log)) + Ran(e)
      {
        ghost var f := e;
        ghost var before := Calls(log);
        var hit;
        hit, e := VisitNext(rest, if calls < |reactions| then reactions[calls] else [], f);
        Associative(Calls(old(log)), Ran(f), More(f, e));
        if hit { calls := calls + 1; }
        rest := rest - 1;
      }
    }

    method HandleSignals(onSignals: seq<Act>)
      requires Valid() && pollfds.Length > 0
      modifies this`sources, this`count, this`dirty, this`nextId, this`log, this`wakes
      ensures Valid() && Reacts(old(View()), View())
      ensures wakes == old(wakes) + if pollfds[0].revents.readable then 1 else 0
    {
      hide Ok;
      SameReacts(View());
      if !pollfds[0].revents.readable { return; }
      wakes := wakes + 1;
      PerformAll(onSignals);
    }

    // dispatch. Signal handlers run first, if there is something on the pipe.
    method Dispatch(onSignals: seq<Act>, reactions: seq<seq<Act>>) returns (ghost called: seq<nat>)
      requires Valid() && pollfds.Length > 0
      modifies this`sources, this`count, this`dirty, this`nextId, this`log, this`wakes
      ensures Valid() && Follows(old(sources), sources)
      ensures Dispatched(old(sources), Rest(sources, |old(sources)|), pollfds[..], |old(sources)|, called)
      ensures Calls(log) == Calls(old(log)) + CallsOf(old(sources), called, pollfds[..])
      ensures wakes == old(wakes) + if pollfds[0].revents.readable then 1 else 0
    {
      hide Ok, Calls, Registered;
      ghost var o := sources;
      HandleSignals(onSignals);
      StartRunning(o, sources, pollfds[..]);
      ghost var d := VisitAll(reactions, Dispatching(o, sources, pollfds[..], |sources|, 0, []));
      called := d.called;
    }

    // poll(2) on the first fd_event_sources entries
    method Wait(ready: seq<Mask>)
      requires Valid() && !dirty
      modifies pollfds
      ensures Valid() && Polled(old(pollfds[..]), pollfds[..]) && Reported(sources, pollfds[..], ready)
      ensures pollfds[0].revents == Answer(ready, 0)
    {
      ghost var st := View();
      AgreesHasRoom(st);
      for i := 0 to count
        invariant Polled(st.fds, pollfds[..])
        invariant forall j :: 0 <= j < i ==> pollfds[j].revents == Answer(ready, j)
      {
        pollfds[i] := pollfds[i].(revents := Answer(ready, i));
      }
      PolledOk(st, pollfds[..]);
    }

    // poller_poll, with what poll(2) reports for each entry; None if it fails. `polled` are the
    // sources it was asked about.
    method Poll(ready: Option<seq<Mask>>, onSignals: seq<Act>, reactions: seq<seq<Act>>)
      returns (ok: bool, ghost polled: seq<Source>, ghost called: seq<nat>)
      requires Valid()
      modifies this`sources, this`pollfds, this`count, this`dirty, this`nextId, this`log, this`wakes, pollfds
      ensures Valid() && ok == ready.Some?
      ensures if old(dirty) then Renumbered(Live(old(sources)), polled) else polled == old(sources)
      ensures ok ==> Reported(polled, pollfds[..], ready.value) && Follows(polled, sources)
      ensures ok ==> Dispatched(polled, Rest(sources, |polled|), pollfds[..], |polled|, called)
      ensures ok ==> Calls(log) == Calls(old(log)) + CallsOf(polled, called, pollfds[..])
      ensures ok ==> forall k :: 0 <= k < |called| ==>
                var s := polled[called[k]];
                CallsOf(polled, called, pollfds[..])[k] == Called(s.id, s.fd, Answer(ready.value, s.idx))
      ensures Registered(old(log), polled)
      ensures ok ==> pollfds.Length > 0 && pollfds[0].fd == signalFd && AsksFor(pollfds[0], true, false)
      ensures wakes == old(wakes) + if ok && Answer(ready.value, 0).readable then 1 else 0
    {
      hide Live, Calls, WatchOf, Ok, Follows, Dispatched, Registered;
      called := [];
      if dirty { Regenerate(); }
      polled := sources;
      IsRegistered(View());
      if ready.None? { return false, polled, called; }
      Wait(ready.value);
      called := Dispatch(onSignals, reactions);
      AsReported(polled, Rest(sources, |polled|), called, pollfds[..], ready.value);
      ok := true;
    }
  }
}
