// The client library and the daemon together, over whole runs: who gets which reply, that no
// event is lost or run twice, and that a queued event wakes its owner up.
module Session {
  import opened Ring
  import opened Protocol
  import opened SeatSpec
  import opened SeatInvariant
  import opened SeatRuns
  import opened SeatReplies
  import opened Libseat
  import opened Letters
  import opened Mailing
  import T = Talk

  datatype World = World(seat: Seat, id: ClientId, talk: T.Talk)

  // A turn of the daemon, or something on the side of the library. `payload` is what the daemon
  // puts behind the header of its reply, if it replies.
  datatype Happening = Daemon(t: Turn, payload: seq<byte>) | Library(a: T.Act)

  function RequestOf(x: T.Sent): Request {
    match x case Ping => PingReq case Asking(ask) => ask.req
  }

  function AskOf(k: T.Talk): Ask {
    if k.requests != [] && k.requests[0].Asking? then k.requests[0].ask else Ask(PingReq, 0)
  }

  predicate Served(w: World, t: Turn) {
    Serves(t, w.id) && w.id in w.seat.clients
  }

  function Posted(w: World, t: Turn, payload: seq<byte>): seq<Letter>
    requires Inv(w.seat)
  {
    Post(Entries(w.seat, Take(w.seat, t)), w.id, AskOf(w.talk), payload)
  }

  // The daemon serves requests in the order in which they were sent, at any time; everything else
  // it may do goes on at the same time.
  ghost predicate Can(w: World, h: Happening)
    requires Inv(w.seat)
  {
    match h
    case Daemon(t, payload) =>
      && (Served(w, t) ==> w.talk.requests != [] && RequestOf(w.talk.requests[0]) == t.step.req)
      && AllSealed(Posted(w, t, payload))
    case Library(a) => !a.Post? && T.Enabled(w.talk, a)
  }

  function Step(w: World, h: Happening): World
    requires Inv(w.seat) && Can(w, h)
  {
    match h
    case Daemon(t, payload) =>
      var r := Take(w.seat, t);
      w.(seat := r, talk := T.Deliver(w.talk, Posted(w, t, payload), Served(w, t), w.id in r.clients))
    case Library(a) => w.(talk := T.Do(w.talk, a))
  }

  ghost predicate Consistent(w: World) {
    && Inv(w.seat) && Issued(w.seat, w.id)
    && T.Sound(w.talk)
    && w.talk.connected == (w.id in w.seat.clients)
    && w.talk.told == AllTold(w.seat.log, w.id)
    && NoPingAsked(w.talk.requests)
  }

  // No synchronous call asks for a pong.
  predicate NoPingAsked(requests: seq<T.Sent>) {
    forall i :: 0 <= i < |requests| && requests[i].Asking? ==> !requests[i].ask.req.PingReq?
  }

  // A client that has just connected.
  ghost predicate Begins(w: World) {
    Inv(w.seat) && w.id in w.seat.clients && AllTold(w.seat.log, w.id) == [] && T.Starts(w.talk)
  }

  ghost predicate Runs(w: World, hs: seq<Happening>, r: World)
    decreases |hs|
  {
    Inv(w.seat) && if hs == [] then r == w else Can(w, hs[0]) && Runs(Step(w, hs[0]), hs[1..], r)
  }

  // ---------------------------------------------------------------- every run is consistent

  // What serving the first request may post.
  lemma DueServed(k: T.Talk, letters: seq<Letter>, said: seq<Reply>, payload: seq<byte>, stays: bool)
    requires k.connected && k.requests != [] && NoPingAsked(k.requests)
    requires if said == [] then !stays else |said| == 1 && Answers(RequestOf(k.requests[0]), said[0])
    requires Results(letters) == (if said == [] then [] else ResultOf(said[0], AskOf(k), payload))
    requires Pongs(letters) == (if said == [] then 0 else PongOf(said[0]))
    ensures T.Due(k, letters, true, stays)
  {
    var x := k.requests[0];
    if x.Asking? {
      assert !x.ask.req.PingReq?;
      if said != [] { PongsAnswerPings(x.ask.req, said[0]); }
    }
  }

  lemma PongsAnswerPings(req: Request, reply: Reply)
    requires Answers(req, reply)
    ensures reply == Pong <==> req == PingReq
  {
  }

  lemma DueFromSaid(w: World, t: Turn, r: Seat, payload: seq<byte>, letters: seq<Letter>, said: seq<Reply>)
    requires Says(w.seat, t, r, w.id, said) && Holds(letters, said, AskOf(w.talk), payload)
    requires Served(w, t) ==> w.talk.requests != [] && RequestOf(w.talk.requests[0]) == t.step.req
    requires w.talk.connected == (w.id in w.seat.clients) && (w.id in r.clients ==> w.talk.connected)
    requires NoPingAsked(w.talk.requests)
    ensures T.Due(w.talk, letters, Served(w, t), w.id in r.clients)
  {
    HeldReply(letters, said, AskOf(w.talk), payload);
    if Served(w, t) { DueServed(w.talk, letters, said, payload, w.id in r.clients); }
  }

  lemma HeldReply(letters: seq<Letter>, said: seq<Reply>, ask: Ask, payload: seq<byte>)
    requires Holds(letters, said, ask, payload) && |said| <= 1
    ensures Results(letters) == (if said == [] then [] else ResultOf(said[0], ask, payload))
    ensures Pongs(letters) == (if said == [] then 0 else PongOf(said[0]))
  {
    if said != [] {
      OneMoreReply([], said[0], ask, payload);
      assert [] + [said[0]] == said;
    }
  }

  lemma KnownBefore(w: World, t: Turn)
    requires Inv(w.seat) && Issued(w.seat, w.id)
    ensures w.id in Take(w.seat, t).clients ==> w.id in w.seat.clients
  {
    if w.id !in w.seat.clients { StaysForgotten(w.seat, t, w.id); }
  }

  lemma DaemonIsDue(w: World, t: Turn, payload: seq<byte>)
    requires Consistent(w) && Can(w, Daemon(t, payload))
    ensures T.Due(w.talk, Posted(w, t, payload), Served(w, t), w.id in Take(w.seat, t).clients)
  {
    var r := Take(w.seat, t);
    var said := TurnPosts(w.seat, t, w.id);
    PostReplies(Entries(w.seat, r), w.id, AskOf(w.talk), payload);
    KnownBefore(w, t);
    DueFromSaid(w, t, r, payload, Posted(w, t, payload), said);
  }

  lemma DaemonTells(w: World, t: Turn, payload: seq<byte>)
    requires Inv(w.seat)
    ensures AllTold(Take(w.seat, t).log, w.id) == AllTold(w.seat.log, w.id) + Events(Posted(w, t, payload))
  {
    var r := Take(w.seat, t);
    TurnExtends(w.seat, t);
    PostEvents(Entries(w.seat, r), w.id, AskOf(w.talk), payload);
    ToldConcat(w.seat.log, Entries(w.seat, r), w.id);
  }

  lemma DaemonConsistent(w: World, t: Turn, payload: seq<byte>)
    requires Consistent(w) && Can(w, Daemon(t, payload))
    ensures Consistent(Step(w, Daemon(t, payload)))
  {
    hide Ready, Take, Posted, Served;
    DaemonIsDue(w, t, payload);
    DaemonTells(w, t, payload);
    StaysIssued(w.seat, t, w.id);
    T.ActSound(w.talk, T.Post(Posted(w, t, payload), Served(w, t), w.id in Take(w.seat, t).clients));
  }

  // The library neither sends events nor changes what the daemon knows.
  predicate Keeps(k: T.Talk, r: T.Talk) {
    r.told == k.told && r.connected == k.connected && (NoPingAsked(k.requests) ==> NoPingAsked(r.requests))
  }

  lemma FinishKeeps(k: T.Talk, pinged: bool)
    requires k.waiting.Some?
    ensures Keeps(k, T.Finish(k, pinged))
  {
    var x := T.Ping;
    assert NoPingAsked(k.requests) ==> NoPingAsked(k.requests + [x]);
  }

  lemma PollKeeps(k: T.Talk, n: nat, m: nat, pinged: bool)
    requires k.waiting.Some? && n <= |k.wire| && m <= |k.fdWire|
    ensures Keeps(k, T.Poll(k, n, m, pinged))
  {
    FinishKeeps(T.Read(T.Receive(k, n, m), true), pinged);
  }

  lemma ActKeeps(k: T.Talk, a: T.Act)
    requires T.Enabled(k, a) && !a.Post?
    ensures Keeps(k, T.Do(k, a))
  {
    if a.Await? { PollKeeps(k, a.n, a.m, a.pinged); }
  }

  lemma StepConsistent(w: World, h: Happening)
    requires Consistent(w) && Can(w, h)
    ensures Consistent(Step(w, h))
  {
    match h
    case Daemon(t, payload) => DaemonConsistent(w, t, payload);
    case Library(a) =>
      ActKeeps(w.talk, a);
      T.ActSound(w.talk, a);
  }

  lemma BeginsConsistent(w: World)
    requires Begins(w)
    ensures Consistent(w)
  {
    T.StartSound(w.talk);
  }

  lemma {:induction false} RunConsistent(w: World, hs: seq<Happening>, r: World)
    requires Consistent(w) && Runs(w, hs, r)
    ensures Consistent(r)
    decreases |hs|
  {
    if hs != [] {
      StepConsistent(w, hs[0]);
      RunConsistent(Step(w, hs[0]), hs[1..], r);
    }
  }

  // ---------------------------------------------------------------- replies

  // No call has given up waiting.
  predicate Patient(hs: seq<Happening>) {
    forall i :: 0 <= i < |hs| ==> hs[i] != Library(T.GiveUp)
  }

  // The only reply owed is that to the call that is running.
  predicate Prompt(k: T.Talk) {
    k.lib.error || |k.owed| == T.One(k.waiting.Some?)
  }

  lemma FinishPrompt(k: T.Talk, pinged: bool)
    requires k.waiting.Some? && |k.owed| == 1
    ensures Prompt(T.Finish(k, pinged))
  {
  }

  lemma ActPrompt(k: T.Talk, a: T.Act)
    requires Prompt(k) && T.Enabled(k, a) && a != T.GiveUp
    ensures Prompt(T.Do(k, a))
  {
    if k.lib.error {
      T.ErrorIsFinal(k, a);
    } else if a.Await? {
      FinishPrompt(T.Read(T.Receive(k, a.n, a.m), true), a.pinged);
    }
  }

  lemma StepPrompt(w: World, h: Happening)
    requires Consistent(w) && Can(w, h) && Prompt(w.talk) && h != Library(T.GiveUp)
    ensures Prompt(Step(w, h).talk)
  {
    if h.Library? { ActPrompt(w.talk, h.a); }
  }

  lemma {:induction false} RunPrompt(w: World, hs: seq<Happening>, r: World)
    requires Consistent(w) && Prompt(w.talk) && Runs(w, hs, r) && Patient(hs)
    ensures Prompt(r.talk)
    decreases |hs|
  {
    if hs != [] {
      StepConsistent(w, hs[0]);
      StepPrompt(w, hs[0]);
      RunPrompt(Step(w, hs[0]), hs[1..], r);
    }
  }

  // The state of a connection after some run from its beginning, with any daemon behaviour; if
  // `patient`, after one in which no call gave up.
  ghost predicate Reachable(k: T.Talk, patient: bool) {
    exists w: World, hs: seq<Happening>, r: World ::
      Begins(w) && Runs(w, hs, r) && r.talk == k && (patient ==> Patient(hs))
  }

  lemma ReachableSound(k: T.Talk, patient: bool)
    requires Reachable(k, patient)
    ensures T.Sound(k) && (patient ==> Prompt(k))
  {
    var w: World, hs: seq<Happening>, r: World :|
      Begins(w) && Runs(w, hs, r) && r.talk == k && (patient ==> Patient(hs));
    BeginsConsistent(w);
    RunConsistent(w, hs, r);
    if patient { RunPrompt(w, hs, r); }
  }

  lemma ReplyShows(mail: seq<Letter>)
    ensures mail != [] && mail[0].Re? ==> Results(mail) != []
  {
  }

  // Without a debt, read_and_queue meets no reply.
  lemma NoSurprise(k: T.Talk)
    requires T.Tight(k) && k.owed == []
    ensures T.Found(k, false) != Unexpected
  {
    var taken := ScanTakes(k.lib, false, k.wire, k.mail);
    var left := Unread(k.lib, k.mail);
    ResultsConcat(taken, left);
    ReplyShows(left);
  }

  // The reply that a call finds is complete and is the reply to the oldest debt.
  lemma FoundReply(k: T.Talk)
    requires T.Tight(k) && k.waiting.Some? && T.Found(k, true).Response?
    ensures var f := T.Read(k, true);
            T.HasReply(f) && f.owed == k.owed && f.owed != [] && f.mail[0].result.ask == f.owed[0]
  {
    T.ReadTight(k, true);
    T.ReplyIsThere(T.Read(k, true));
  }

  // The reply about to be read was produced for this very call, with its own descriptor if it
  // brings one, and the id that the daemon gave to the device; it is accepted, as a refusal exactly
  // if the daemon refused, and no other reply is behind it.
  predicate Own(f: T.Talk) {
    && f.waiting.Some? && f.mail != [] && f.mail[0].Re? && f.mail[0].result.ask == f.waiting.value
    && (f.mail[0].result.reply.DeviceOpened? ==> f.fds != [] && f.fds[0] == f.waiting.value)
    && (f.mail[0].result.reply.DeviceOpened? ==> T.Outcome(f).value == f.mail[0].result.reply.id)
    && T.Outcome(f).outcome == (if f.mail[0].result.reply == Error then Declined else Fine)
    && T.Found(T.Consume(f), false) != Unexpected
  }

  lemma OwnReply(f: T.Talk)
    requires T.HasReply(f) && |f.owed| == 1 && !f.lib.error
    ensures Own(f)
  {
    T.ReplyIsThere(f);
    if f.mail[0].result.reply.DeviceOpened? { T.DescriptorIsThere(f); }
    OwnReplyFits(f.lib, f.waiting.value.req, f.fds != [], f.mail[0].result);
    T.ConsumeTight(f);
    NoSurprise(T.Consume(f));
  }

  // In a run in which no call gave up: between calls read_and_queue never meets an unexpected
  // reply, and the reply a call finds, wherever the reads cut the stream, is its own.
  lemma RepliesMatch(k: T.Talk, n: nat, m: nat)
    requires Reachable(k, true) && !k.lib.error && T.Arrival(k, n, m)
    ensures k.waiting.None? ==> T.Found(T.Receive(k, n, m), false) != Unexpected
    ensures k.waiting.Some? && T.Found(T.Receive(k, n, m), true).Response? ==> Own(T.Read(T.Receive(k, n, m), true))
  {
    ReachableSound(k, true);
    T.ReceiveTight(k, n, m);
    var r := T.Receive(k, n, m);
    if k.waiting.None? {
      NoSurprise(r);
    } else if T.Found(r, true).Response? {
      FoundReply(r);
      WantedIsSafe(r.lib);
      OwnReply(T.Read(r, true));
    }
  }

  // In any run, calls that gave up included: a call reads the reply produced for itself if and
  // only if no other reply is owed when it reads.
  lemma WhoseReply(k: T.Talk, n: nat, m: nat)
    requires Reachable(k, false) && !k.lib.error && k.waiting.Some? && T.Arrival(k, n, m)
    requires T.Found(T.Receive(k, n, m), true).Response?
    ensures var f := T.Read(T.Receive(k, n, m), true);
            f.mail != [] && f.mail[0].Re? && (f.mail[0].result.ask == k.waiting.value <==> k.owed == [k.waiting.value])
  {
    hide Take;
    ReachableSound(k, false);
    T.ReceiveTight(k, n, m);
    FoundReply(T.Receive(k, n, m));
    OldestIsLast(k.owed, k.calls);
  }

  lemma OldestIsLast(owed: seq<Ask>, calls: nat)
    requires T.InOrder(owed, calls) && owed != []
    ensures owed[0] == owed[|owed| - 1] <==> owed == [owed[|owed| - 1]]
  {
    if |owed| > 1 { assert owed[0].serial < owed[|owed| - 1].serial; }
  }

  // ---------------------------------------------------------------- wake-ups

  // Every call but open_seat and close_seat that gets a reply settles the connection.
  lemma CallSettles(k: T.Talk, n: nat, m: nat, pinged: bool)
    requires k.waiting.Some? && n <= |k.wire| && m <= |k.fdWire|
    ensures var p := T.Poll(k, n, m, pinged);
            p.waiting.None? && !k.waiting.value.req.OpenSeatReq? && !k.waiting.value.req.CloseSeatReq? ==> p.settled
  {
  }

  // Pings and pongs: never more than one outstanding, and awaiting_pong tells whether one is. With
  // a daemon that still knows the client it is on its way in one direction or the other.
  lemma PingBalance(k: T.Talk)
    requires Reachable(k, false) && !k.lib.error
    ensures k.lib.pings - k.lib.pongs == (if k.lib.awaiting then 1 else 0)
    ensures k.connected ==> T.Pings(k.requests) + Pongs(k.mail) == k.lib.pings - k.lib.pongs
  {
    ReachableSound(k, false);
  }

  // After a call has settled the connection, an event that is still pending will wake the
  // application up: nothing complete is left on the ring, one ping is outstanding, and the daemon
  // has yet to answer it or its answer is yet to arrive.
  lemma NoLostWakeup(k: T.Talk)
    requires Reachable(k, false) && !k.lib.error && k.waiting.None? && k.settled
    ensures |k.lib.ring| < HEADER
    ensures k.lib.events == [] || (k.lib.awaiting && k.lib.pings == k.lib.pongs + 1)
    ensures k.lib.events != [] && k.connected ==> T.Pings(k.requests) == 1 || k.wire != []
  {
    ReachableSound(k, false);
    PongIsLong(k.mail);
  }

  lemma PongIsLong(mail: seq<Letter>)
    requires AllSealed(mail)
    ensures Pongs(mail) > 0 ==> |Bytes(mail)| >= HEADER
  {
  }

  // ---------------------------------------------------------------- events

  // Each event the daemon sent is executed at most once, in any run and however listeners call
  // back; one that was read is pending, on the list of a running execute_events, executed, or
  // was dropped by an error, and nothing else is executed.
  lemma EventsRunOnce(k: T.Talk, p: Pending)
    requires Reachable(k, false)
    ensures multiset(k.lib.events)[p] + Flat(k.lib.lists)[p] + multiset(k.lib.executed)[p] + multiset(k.lib.dropped)[p]
         == if p.serial < |k.lib.seen| && k.lib.seen[p.serial] == p.opcode then 1 else 0
    ensures !k.lib.error ==> k.lib.seen + Events(k.mail) == k.told
  {
    ReachableSound(k, false);
    ExactlyOnce(k.lib, p);
  }

  // In every run, what the next execute_events will run is the reverse of what arrived.
  lemma ExecutionOrder(k: T.Talk)
    requires Reachable(k, false)
    ensures NewestFirst(k.lib) && RunsBackwards(Batch(k.lib), Opcodes(k.lib.events))
  {
    ReachableSound(k, false);
    BatchOrder(k.lib);
  }

  // The history `told` is the daemon's.
  lemma ToldByDaemon(w: World, hs: seq<Happening>, r: World)
    requires Begins(w) && Runs(w, hs, r)
    ensures r.talk.told == AllTold(r.seat.log, r.id) && r.talk.connected == (r.id in r.seat.clients)
  {
    BeginsConsistent(w);
    RunConsistent(w, hs, r);
  }
}
