// One client library instance and its connection: requests under way to the daemon, letters under
// way back, and what the library knows. The daemon is whoever posts the letters (see Session).
module Talk {
  import opened Options
  import opened Ring
  import opened Protocol
  import opened SeatSpec
  import opened SeatReplies
  import opened Libseat
  import opened Letters

  datatype Sent = Ping | Asking(ask: Ask)

  datatype Talk = Talk(
    lib: Lib,
    requests: seq<Sent>,     // sent, and not yet served
    wire: seq<byte>,         // sent by the daemon, and not yet received
    waiting: Option<Ask>,    // the synchronous call that is running
    settled: bool,           // the last call left neither a message nor an event behind unnoticed
    connected: bool,         // the daemon still knows this client
    fds: seq<Ask>,           // descriptors received, by the request they were opened for
    fdWire: seq<Ask>,        // descriptors sent, and not yet received
    mail: seq<Letter>,       // history: the letters whose bytes are on the ring and the wire
    owed: seq<Ask>,          // history: requests whose reply was not read
    calls: nat,              // history: synchronous calls made
    told: seq<u16>)          // history: every event the daemon sent

  // A connection on which nothing has happened yet.
  predicate Starts(k: Talk) {
    && k.lib.ring == [] && k.lib.events == [] && k.lib.lists == [] && !k.lib.awaiting && !k.lib.error
    && k.lib.seen == [] && k.lib.executed == [] && k.lib.dropped == [] && k.lib.pings == 0 && k.lib.pongs == 0
    && k.requests == [] && k.wire == [] && k.waiting.None? && k.settled && k.connected
    && k.fds == [] && k.fdWire == []
    && k.mail == [] && k.owed == [] && k.calls == 0 && k.told == []
  }

  function Asks(requests: seq<Sent>): seq<Ask> {
    if requests == [] then [] else (if requests[0].Asking? then [requests[0].ask] else []) + Asks(requests[1..])
  }

  function Pings(requests: seq<Sent>): nat {
    if requests == [] then 0 else (if requests[0].Ping? then 1 else 0) + Pings(requests[1..])
  }

  lemma {:induction false} SentMore(requests: seq<Sent>, x: Sent)
    ensures Asks(requests + [x]) == Asks(requests) + if x.Asking? then [x.ask] else []
    ensures Pings(requests + [x]) == Pings(requests) + if x.Ping? then 1 else 0
  {
    if requests == [] {
      assert [x][1..] == [];
    } else {
      SentMore(requests[1..], x);
      assert (requests + [x])[1..] == requests[1..] + [x];
    }
  }

  // ---------------------------------------------------------------- the invariant

  function One(b: bool): nat {
    if b then 1 else 0
  }

  ghost predicate Streams(k: Talk) {
    AllSealed(k.mail) && k.lib.ring + k.wire == Bytes(k.mail)
  }

  // The replies under way are those to the oldest requests owed one, in order; the others are
  // still to be served.
  predicate Matched(owed: seq<Ask>, results: seq<Result>, asks: seq<Ask>, connected: bool) {
    && |results| <= |owed|
    && (forall i :: 0 <= i < |results| ==> results[i].ask == owed[i] && Answers(owed[i].req, results[i].reply))
    && (connected ==> asks == owed[|results|..])
  }

  predicate InOrder(owed: seq<Ask>, calls: nat) {
    && (forall i :: 0 <= i < |owed| ==> owed[i].serial < calls && !owed[i].req.PingReq?)
    && (forall i, j :: 0 <= i < j < |owed| ==> owed[i].serial < owed[j].serial)
  }

  predicate Owes(k: Talk) {
    && Matched(k.owed, Results(k.mail), Asks(k.requests), k.connected)
    && InOrder(k.owed, k.calls)
    && (k.waiting.Some? ==> k.owed != [] && k.owed[|k.owed| - 1] == k.waiting.value)
  }

  predicate Balanced(lib: Lib, pings: nat, pongs: nat, connected: bool) {
    && lib.pings == lib.pongs + One(lib.awaiting)
    && pings + pongs <= One(lib.awaiting)
    && (connected ==> pings + pongs == One(lib.awaiting))
  }

  predicate Pinged(k: Talk) {
    Balanced(k.lib, Pings(k.requests), Pongs(k.mail), k.connected)
  }

  predicate Heard(k: Talk) {
    k.lib.seen + Events(k.mail) == k.told
  }

  // The descriptors under way belong to the replies under way, in order, and each is here before
  // the first byte of its reply.
  predicate Carried(k: Talk) {
    k.fds + k.fdWire == Openings(Results(k.mail)) && Begun(k.mail, |k.lib.ring|) <= |k.fds|
  }

  predicate Rests(k: Talk) {
    k.waiting.None? && k.settled ==> (k.lib.events != [] ==> k.lib.awaiting) && |k.lib.ring| < HEADER
  }

  ghost predicate Tight(k: Talk) {
    Streams(k) && Owes(k) && Pinged(k) && Heard(k) && Carried(k)
  }

  ghost predicate Sound(k: Talk) {
    Conserved(k.lib) && (k.lib.error || (Tight(k) && Rests(k)))
  }

  lemma StartSound(k: Talk)
    requires Starts(k)
    ensures Sound(k)
  {
    assert Rests(k) && Owes(k);
  }

  // ---------------------------------------------------------------- letters arriving

  // What the daemon may post in one turn.
  predicate Due(k: Talk, letters: seq<Letter>, served: bool, stays: bool) {
    && (stays ==> k.connected)
    && if !served then Results(letters) == [] && Pongs(letters) == 0
       else
         && k.connected && k.requests != []
         && match k.requests[0]
            case Ping => Results(letters) == [] && Pongs(letters) <= 1 && (stays ==> Pongs(letters) == 1)
            case Asking(ask) =>
              && Pongs(letters) == 0 && |Results(letters)| <= 1 && (stays ==> |Results(letters)| == 1)
              && forall r :: r in Results(letters) ==> r.ask == ask && Answers(ask.req, r.reply)
  }

  function Deliver(k: Talk, letters: seq<Letter>, served: bool, stays: bool): Talk
    requires AllSealed(letters) && (served ==> k.requests != [])
  {
    k.(requests := if served then k.requests[1..] else k.requests,
       mail := k.mail + letters, wire := k.wire + Bytes(letters), fdWire := k.fdWire + Openings(Results(letters)),
       told := k.told + Events(letters), connected := stays)
  }

  lemma MatchedMore(owed: seq<Ask>, results: seq<Result>, asks: seq<Ask>, r: Result, stays: bool)
    requires Matched(owed, results, asks, true) && asks != [] && r.ask == asks[0] && Answers(asks[0].req, r.reply)
    ensures Matched(owed, results + [r], asks[1..], stays)
  {
    assert owed[|results|] == asks[0];
    assert owed[|results| + 1..] == owed[|results|..][1..];
  }

  lemma DeliverOwes(k: Talk, letters: seq<Letter>, served: bool, stays: bool)
    requires AllSealed(letters) && Due(k, letters, served, stays) && Owes(k)
    ensures Owes(Deliver(k, letters, served, stays))
  {
    hide InOrder, Answers, Openings, Events, Bytes;
    ResultsConcat(k.mail, letters);
    var results, more := Results(k.mail), Results(letters);
    if more == [] {
      assert results + more == results;
    } else {
      assert more == [more[0]];
      MatchedMore(k.owed, results, Asks(k.requests), more[0], stays);
    }
  }

  lemma DeliverPinged(k: Talk, letters: seq<Letter>, served: bool, stays: bool)
    requires AllSealed(letters) && Due(k, letters, served, stays) && Pinged(k)
    ensures Pinged(Deliver(k, letters, served, stays))
  {
    PongsConcat(k.mail, letters);
  }

  lemma DeliverCarried(k: Talk, letters: seq<Letter>, served: bool, stays: bool)
    requires AllSealed(letters) && (served ==> k.requests != []) && Streams(k) && Carried(k)
    ensures Carried(Deliver(k, letters, served, stays))
  {
    ResultsConcat(k.mail, letters);
    OpeningsConcat(Results(k.mail), Results(letters));
    Associative(k.fds, k.fdWire, Openings(Results(letters)));
    BegunBefore(k.mail, letters, |k.lib.ring|);
  }

  lemma DeliverTight(k: Talk, letters: seq<Letter>, served: bool, stays: bool)
    requires AllSealed(letters) && Due(k, letters, served, stays) && Tight(k)
    ensures Tight(Deliver(k, letters, served, stays))
  {
    DeliverOwes(k, letters, served, stays);
    DeliverPinged(k, letters, served, stays);
    DeliverCarried(k, letters, served, stays);
    BytesConcat(k.mail, letters);
    Associative(k.lib.ring, k.wire, Bytes(letters));
    EventsConcat(k.mail, letters);
    Associative(k.lib.seen, Events(k.mail), Events(letters));
  }

  // ---------------------------------------------------------------- reading

  // A read may bring `n` bytes and `m` descriptors: no byte of a reply comes before its descriptor.
  predicate Arrival(k: Talk, n: nat, m: nat) {
    n <= |k.wire| && m <= |k.fdWire| && Begun(k.mail, |k.lib.ring| + n) <= |k.fds| + m
  }

  function Receive(k: Talk, n: nat, m: nat): Talk
    requires n <= |k.wire| && m <= |k.fdWire|
  {
    k.(lib := k.lib.(ring := k.lib.ring + k.wire[..n]), wire := k.wire[n..],
       fds := k.fds + k.fdWire[..m], fdWire := k.fdWire[m..])
  }

  lemma ReceiveTight(k: Talk, n: nat, m: nat)
    requires Arrival(k, n, m) && Tight(k)
    ensures Tight(Receive(k, n, m))
  {
    hide Results, Openings, Bytes, Events, Pongs, Pings, Asks, Begun, Matched, InOrder, AllSealed;
    assert k.lib.ring + k.wire[..n] + k.wire[n..] == k.lib.ring + k.wire;
    assert k.fds + k.fdWire[..m] + k.fdWire[m..] == k.fds + k.fdWire;
  }

  function Found(k: Talk, wanted: bool): Libseat.Found {
    ReadAndQueue(k.lib, wanted).found
  }

  function Read(k: Talk, wanted: bool): Talk {
    k.(lib := ReadAndQueue(k.lib, wanted).l, mail := Unread(k.lib, k.mail))
  }

  lemma BalancedAfter(l: Lib, r: Lib, taken: seq<Letter>, pings: nat, pongs: nat, connected: bool)
    requires Took(l, r, taken) && Balanced(l, pings, Pongs(taken) + pongs, connected)
    ensures Balanced(r, pings, pongs, connected)
  {
  }

  lemma TookOwes(k: Talk, r: Lib, taken: seq<Letter>, left: seq<Letter>)
    requires Owes(k) && k.mail == taken + left && Took(k.lib, r, taken)
    ensures Owes(k.(lib := r, mail := left))
  {
    ResultsConcat(taken, left);
    assert Results(k.mail) == Results(left);
  }

  lemma TookRest(k: Talk, r: Lib, taken: seq<Letter>, left: seq<Letter>)
    requires Pinged(k) && Heard(k) && k.mail == taken + left && Took(k.lib, r, taken)
    ensures Pinged(k.(lib := r, mail := left)) && Heard(k.(lib := r, mail := left))
  {
    PongsConcat(taken, left);
    BalancedAfter(k.lib, r, taken, Pings(k.requests), Pongs(left), k.connected);
    EventsConcat(taken, left);
    Associative(k.lib.seen, Events(taken), Events(left));
  }

  lemma TookCarried(k: Talk, r: Lib, taken: seq<Letter>, left: seq<Letter>)
    requires Streams(k) && Carried(k) && k.mail == taken + left && Took(k.lib, r, taken)
    requires AllSealed(left) && r.ring + k.wire == Bytes(left)
    ensures Carried(k.(lib := r, mail := left))
  {
    ResultsConcat(taken, left);
    assert Results(k.mail) == Results(left);
    assert AllSealed(taken) by { assert forall i :: 0 <= i < |taken| ==> taken[i] == k.mail[i]; }
    BytesConcat(taken, left);
    assert |k.lib.ring| == |Bytes(taken)| + |r.ring|;
    BegunAfter(taken, left, |k.lib.ring|);
  }

  lemma TookTight(k: Talk, r: Lib, taken: seq<Letter>, left: seq<Letter>)
    requires Tight(k) && k.mail == taken + left && Took(k.lib, r, taken)
    requires AllSealed(left) && r.ring + k.wire == Bytes(left)
    ensures Tight(k.(lib := r, mail := left))
  {
    TookOwes(k, r, taken, left);
    TookRest(k, r, taken, left);
    TookCarried(k, r, taken, left);
  }

  // read_and_queue keeps the books, and stops where it should.
  lemma ReadTight(k: Talk, wanted: bool)
    requires Tight(k)
    ensures var r := Read(k, wanted);
            && AllSealed(r.mail) && Stops(Scan(r.lib, Found(k, wanted)), wanted, r.mail)
            && (Found(k, wanted) != Unexpected ==> Tight(r))
  {
    var taken := ScanTakes(k.lib, wanted, k.wire, k.mail);
    if Found(k, wanted) != Unexpected { TookTight(k, ReadAndQueue(k.lib, wanted).l, taken, Unread(k.lib, k.mail)); }
  }

  // ---------------------------------------------------------------- a synchronous call

  function Begin(k: Talk, req: Request, flushed: bool): Talk {
    if !flushed then k.(lib := SetError(k.lib))
    else
      var ask := Ask(req, k.calls);
      k.(waiting := Some(ask), requests := k.requests + [Asking(ask)], owed := k.owed + [ask], calls := k.calls + 1)
  }

  lemma MatchedAsk(owed: seq<Ask>, results: seq<Result>, asks: seq<Ask>, connected: bool, ask: Ask)
    requires Matched(owed, results, asks, connected)
    ensures Matched(owed + [ask], results, asks + [ask], connected)
  {
    assert (owed + [ask])[|results|..] == owed[|results|..] + [ask];
  }

  lemma BeginTight(k: Talk, req: Request)
    requires Tight(k) && !req.PingReq?
    ensures Tight(Begin(k, req, true))
  {
    hide Results, Openings, Bytes, Events, Pongs, Begun, Matched, AllSealed;
    var ask := Ask(req, k.calls);
    SentMore(k.requests, Asking(ask));
    MatchedAsk(k.owed, Results(k.mail), Asks(k.requests), k.connected, ask);
  }

  // The first reply of the mail is read as the reply to the call that is running.
  function Consume(k: Talk): Talk
    requires k.waiting.Some?
  {
    var got := Outcome(k);
    var taken := k.waiting.value.req == OpenDeviceReq && got.outcome == Fine && k.fds != [];
    Strike(k, got.l).(fds := if taken then k.fds[1..] else k.fds)
  }

  // What the call makes of it; the descriptor it looks for is the oldest one received.
  function Outcome(k: Talk): Parsed
    requires k.waiting.Some?
  {
    TakeReply(k.lib, k.waiting.value.req, k.fds != [])
  }

  // The first letter and the oldest debt are crossed off.
  function Strike(k: Talk, lib: Lib): Talk {
    k.(lib := lib, waiting := None,
       mail := if k.mail == [] then [] else k.mail[1..], owed := if k.owed == [] then [] else k.owed[1..])
  }

  lemma MatchedLess(owed: seq<Ask>, results: seq<Result>, asks: seq<Ask>, connected: bool)
    requires Matched(owed, results, asks, connected) && results != []
    ensures Matched(owed[1..], results[1..], asks, connected)
  {
    assert owed[1..][|results| - 1..] == owed[|results|..];
  }

  // A complete reply is the first unread letter.
  ghost predicate HasReply(k: Talk) {
    Tight(k) && k.waiting.Some? && k.mail != [] && k.mail[0].Re? && |k.lib.ring| >= |Wrap(k.mail[0])|
  }

  lemma ReplyIsThere(k: Talk)
    requires HasReply(k)
    ensures Results(k.mail) == [k.mail[0].result] + Results(k.mail[1..]) && k.owed != []
    ensures k.mail[0].result.ask == k.owed[0] && Answers(k.owed[0].req, k.mail[0].result.reply)
    ensures OnRing(k.lib.ring, k.mail[0].result) && !k.waiting.value.req.PingReq?
  {
    assert Results(k.mail)[0] == k.mail[0].result;
    BytesOfFirst(k.lib.ring, k.wire, k.mail);
  }

  lemma InOrderLess(owed: seq<Ask>, calls: nat)
    requires InOrder(owed, calls) && owed != []
    ensures InOrder(owed[1..], calls)
  {
    assert forall i :: 0 <= i < |owed[1..]| ==> owed[1..][i] == owed[i + 1];
  }

  lemma StrikeOwes(k: Talk, lib: Lib)
    requires HasReply(k)
    ensures Owes(Strike(k, lib)) && Pongs(Strike(k, lib).mail) == Pongs(k.mail)
    ensures Events(Strike(k, lib).mail) == Events(k.mail)
  {
    ReplyIsThere(k);
    MatchedLess(k.owed, Results(k.mail), Asks(k.requests), k.connected);
    InOrderLess(k.owed, k.calls);
  }

  // The descriptor of a reply is the oldest one here.
  lemma DescriptorIsThere(k: Talk)
    requires HasReply(k) && k.mail[0].result.reply.DeviceOpened?
    ensures k.fds != [] && k.fds[0] == k.mail[0].result.ask
  {
    ReplyIsThere(k);
    assert Openings(Results(k.mail))[0] == k.mail[0].result.ask;
  }

  lemma StrikeCarried(k: Talk, lib: Lib)
    requires HasReply(k) && lib == Skip(k.lib, |Wrap(k.mail[0])|)
    ensures var taken := k.mail[0].result.reply.DeviceOpened? && k.fds != [];
            Carried(Strike(k, lib).(fds := if taken then k.fds[1..] else k.fds))
  {
    ReplyIsThere(k);
    var r, rest := k.mail[0].result, Results(k.mail[1..]);
    assert Results(k.mail)[1..] == rest;
    assert Openings(Results(k.mail)) == OpeningIn(r) + Openings(rest);
    if r.reply.DeviceOpened? {
      DescriptorIsThere(k);
      assert (k.fds + k.fdWire)[1..] == k.fds[1..] + k.fdWire;
      assert ([r.ask] + Openings(rest))[1..] == Openings(rest);
    }
  }

  lemma StrikeTight(k: Talk)
    requires HasReply(k)
    ensures Tight(Strike(k, Skip(k.lib, |Wrap(k.mail[0])|)).(
                    fds := if k.mail[0].result.reply.DeviceOpened? && k.fds != [] then k.fds[1..] else k.fds))
  {
    StrikeOwes(k, Skip(k.lib, |Wrap(k.mail[0])|));
    StrikeCarried(k, Skip(k.lib, |Wrap(k.mail[0])|));
    BytesOfFirst(k.lib.ring, k.wire, k.mail);
  }

  lemma ConsumeTight(k: Talk)
    requires HasReply(k)
    ensures var c := Consume(k); c.lib.error || Tight(c)
  {
    ReplyIsThere(k);
    AnyReplyFits(k.lib, k.waiting.value.req, k.fds != [], k.mail[0].result);
    if !Outcome(k).l.error { DeviceReplyFits(k.lib, k.waiting.value.req, k.fds != [], k.mail[0].result); }
    StrikeTight(k);
  }

  // check_pending_events
  function Check(k: Talk, pinged: bool): Talk {
    var lib := CheckPending(k.lib, pinged);
    k.(lib := lib, mail := Unread(k.lib, k.mail), settled := true,
       requests := if lib.pings > ReadAndQueue(k.lib, false).l.pings then k.requests + [Ping] else k.requests)
  }

  lemma PingTight(k: Talk)
    requires Tight(k) && !k.lib.awaiting
    ensures Tight(k.(lib := k.lib.(awaiting := true, pings := k.lib.pings + 1), requests := k.requests + [Ping]))
  {
    SentMore(k.requests, Ping);
    assert Asks(k.requests) + [] == Asks(k.requests);
  }

  lemma SettledTight(k: Talk)
    requires Tight(k)
    ensures Tight(k.(settled := true))
  {
  }

  lemma CheckTight(k: Talk, pinged: bool)
    requires Tight(k)
    ensures var c := Check(k, pinged); c.lib.error || (Tight(c) && Rests(c))
  {
    hide Tight, ReadAndQueue, Unread;
    ReadTight(k, false);
    SurpriseIsError(k.lib, false);
    var r := Read(k, false);
    if Found(k, false) != Unexpected {
      SettledTight(r);
      if r.lib.events != [] && !r.lib.awaiting && pinged {
        PingTight(r);
        SettledTight(r.(lib := r.lib.(awaiting := true, pings := r.lib.pings + 1), requests := r.requests + [Ping]));
      }
    }
  }

  // What a call does once it has read its reply: open_seat and close_seat run the listener, the
  // others check for pending events; open_seat destroys the backend if it did not get a seat.
  function WindUp(c: Talk, req: Request, fine: bool, pinged: bool): Talk {
    if req == OpenSeatReq && !fine then c.(lib := SetError(c.lib))
    else if req == OpenSeatReq || req == CloseSeatReq then c.(lib := BeginExecute(c.lib), settled := false)
    else Check(c, pinged)
  }

  lemma ExecuteTight(c: Talk)
    requires Tight(c)
    ensures Tight(c.(lib := BeginExecute(c.lib))) && Tight(c.(lib := BeginExecute(c.lib), settled := false))
  {
  }

  lemma WindUpSound(c: Talk, req: Request, fine: bool, pinged: bool)
    requires c.lib.error || Tight(c)
    ensures var f := WindUp(c, req, fine, pinged); f.lib.error || (Tight(f) && Rests(f))
  {
    if c.lib.error {
      ErrorStays(c.lib, pinged);
    } else if req == OpenSeatReq || req == CloseSeatReq {
      ExecuteTight(c);
    } else {
      CheckTight(c, pinged);
    }
  }

  function Finish(k: Talk, pinged: bool): Talk
    requires k.waiting.Some?
  {
    WindUp(Consume(k), k.waiting.value.req, Outcome(k).outcome == Fine, pinged)
  }

  lemma FinishSound(k: Talk, pinged: bool)
    requires HasReply(k)
    ensures var f := Finish(k, pinged); f.lib.error || (Tight(f) && Rests(f))
  {
    ConsumeTight(k);
    WindUpSound(Consume(k), k.waiting.value.req, Outcome(k).outcome == Fine, pinged);
  }

  // One turn of read_until_response: the poll brings `n` bytes and `m` descriptors.
  function Poll(k: Talk, n: nat, m: nat, pinged: bool): Talk
    requires k.waiting.Some? && n <= |k.wire| && m <= |k.fdWire|
  {
    var r := Receive(k, n, m);
    var found := Found(r, true);
    if found.Response? && found.opcode != 0 then Finish(Read(r, true), pinged) else Read(r, true)
  }

  lemma PollSound(k: Talk, n: nat, m: nat, pinged: bool)
    requires Tight(k) && k.waiting.Some? && Arrival(k, n, m)
    ensures var p := Poll(k, n, m, pinged); p.lib.error || (Tight(p) && Rests(p))
  {
    ReceiveTight(k, n, m);
    var r := Receive(k, n, m);
    ReadTight(r, true);
    if Found(r, true).Response? { FinishSound(Read(r, true), pinged); }
  }

  lemma ErrorStays(l: Lib, pinged: bool)
    requires l.error
    ensures CheckPending(l, pinged).error
  {
    ScanKeeps((x: Lib) => x.error, l, false);
  }

  // ---------------------------------------------------------------- everything that can happen

  datatype Act =
    | Post(letters: seq<Letter>, served: bool, stays: bool)  // a turn of the daemon
    | Call(req: Request, flushed: bool)                      // a synchronous function is entered
    | Await(n: nat, m: nat, pinged: bool)                    // a turn of read_until_response
    | GiveUp                                                 // poll or recvmsg fails without an error state
    | Fail                                                   // hangup, any other failure, destruction
    | Dispatch(n: nat, m: nat)                               // half a dispatch: read, then run the listener
    | RunListener
    | ListenersDone

  // A listener runs while its list is on the stack, so between two steps of it anything may
  // happen that an application may do; only close_seat frees what the outer calls still use.
  ghost predicate Enabled(k: Talk, a: Act) {
    match a
    case Post(letters, served, stays) => AllSealed(letters) && Due(k, letters, served, stays)
    case Call(req, _) =>
      k.waiting.None? && !k.lib.error && !req.PingReq? && (req == CloseSeatReq ==> k.lib.lists == [])
    case Await(n, m, _) => k.waiting.Some? && !k.lib.error && Arrival(k, n, m)
    case GiveUp => k.waiting.Some? && !k.lib.error
    case Fail => true
    case Dispatch(n, m) => k.waiting.None? && if k.lib.error then n <= |k.wire| && m <= |k.fdWire| else Arrival(k, n, m)
    case RunListener => k.waiting.None? && k.lib.lists != [] && k.lib.lists[0] != []
    case ListenersDone => k.waiting.None? && k.lib.lists != [] && k.lib.lists[0] == []
  }

  function Half(k: Talk, n: nat, m: nat): Talk
    requires n <= |k.wire| && m <= |k.fdWire|
  {
    var r := Read(Receive(k, n, m), false);
    if Found(Receive(k, n, m), false) == Unexpected then r else r.(lib := BeginExecute(r.lib), settled := true)
  }

  function Do(k: Talk, a: Act): Talk
    requires Enabled(k, a)
  {
    match a
    case Post(letters, served, stays) => Deliver(k, letters, served, stays)
    case Call(req, flushed) => Begin(k, req, flushed)
    case Await(n, m, pinged) => Poll(k, n, m, pinged)
    case GiveUp => k.(waiting := None, settled := false)
    case Fail => k.(lib := SetError(k.lib), waiting := None)
    case Dispatch(n, m) => Half(k, n, m)
    case RunListener => k.(lib := ExecuteNext(k.lib))
    case ListenersDone => k.(lib := EndExecute(k.lib))
  }

  lemma HalfSound(k: Talk, n: nat, m: nat)
    requires Tight(k) && Arrival(k, n, m)
    ensures var h := Half(k, n, m); h.lib.error || (Tight(h) && Rests(h))
  {
    ReceiveTight(k, n, m);
    var r := Receive(k, n, m);
    ReadTight(r, false);
    SurpriseIsError(r.lib, false);
    if Found(r, false) != Unexpected { ExecuteTight(Read(r, false)); }
  }

  lemma FinishConserves(k: Talk, pinged: bool)
    requires Conserved(k.lib) && k.waiting.Some?
    ensures Conserved(Finish(k, pinged).lib)
  {
    ReplyConserves(k.lib, k.waiting.value.req, k.fds != []);
    WindUpConserves(Consume(k), k.waiting.value.req, Outcome(k).outcome == Fine, pinged);
  }

  lemma WindUpConserves(c: Talk, req: Request, fine: bool, pinged: bool)
    requires Conserved(c.lib)
    ensures Conserved(WindUp(c, req, fine, pinged).lib)
  {
    hide Conserved;
    SetErrorConserves(c.lib);
    BeginConserves(c.lib);
    CheckConserves(c.lib, pinged);
  }

  lemma PollConserves(k: Talk, n: nat, m: nat, pinged: bool)
    requires Conserved(k.lib) && k.waiting.Some? && n <= |k.wire| && m <= |k.fdWire|
    ensures Conserved(Poll(k, n, m, pinged).lib)
  {
    var r := Receive(k, n, m);
    ScanConserves(r.lib, true);
    FinishConserves(Read(r, true), pinged);
  }

  lemma HalfConserves(k: Talk, n: nat, m: nat)
    requires Conserved(k.lib) && n <= |k.wire| && m <= |k.fdWire|
    ensures Conserved(Half(k, n, m).lib)
  {
    var r := Receive(k, n, m);
    ScanConserves(r.lib, false);
    BeginConserves(Read(r, false).lib);
  }

  lemma ActConserves(k: Talk, a: Act)
    requires Conserved(k.lib) && Enabled(k, a)
    ensures Conserved(Do(k, a).lib)
  {
    match a
    case Post(_, _, _) =>
    case Call(_, _) => SetErrorConserves(k.lib);
    case Await(n, m, pinged) => PollConserves(k, n, m, pinged);
    case GiveUp =>
    case Fail => SetErrorConserves(k.lib);
    case Dispatch(n, m) => HalfConserves(k, n, m);
    case RunListener => ExecuteConserves(k.lib);
    case ListenersDone =>
  }

  lemma ErrorIsFinal(k: Talk, a: Act)
    requires Enabled(k, a) && k.lib.error
    ensures Do(k, a).lib.error
  {
    if a.Dispatch? { ScanKeeps((x: Lib) => x.error, Receive(k, a.n, a.m).lib, false); }
  }

  // Running listeners does not touch the books.
  lemma ListenTight(k: Talk, lists: seq<seq<Pending>>, executed: seq<Pending>)
    requires Tight(k) && Rests(k)
    ensures var r := k.(lib := k.lib.(lists := lists, executed := executed)); Tight(r) && Rests(r)
  {
  }

  lemma GiveUpTight(k: Talk)
    requires Tight(k)
    ensures var r := k.(waiting := None, settled := false); Tight(r) && Rests(r)
  {
  }

  lemma ActTight(k: Talk, a: Act)
    requires Tight(k) && Rests(k) && !k.lib.error && Enabled(k, a)
    ensures var r := Do(k, a); r.lib.error || (Tight(r) && Rests(r))
  {
    match a
    case Post(letters, served, stays) => DeliverTight(k, letters, served, stays);
    case Call(req, flushed) => if flushed { BeginTight(k, req); }
    case Await(n, m, pinged) => PollSound(k, n, m, pinged);
    case GiveUp => GiveUpTight(k);
    case Fail =>
    case Dispatch(n, m) => HalfSound(k, n, m);
    case RunListener => ListenTight(k, ExecuteNext(k.lib).lists, ExecuteNext(k.lib).executed);
    case ListenersDone => ListenTight(k, EndExecute(k.lib).lists, k.lib.executed);
  }

  // Whatever happens, the books stay in order until the backend is in its error state.
  lemma ActSound(k: Talk, a: Act)
    requires Sound(k) && Enabled(k, a)
    ensures Sound(Do(k, a))
  {
    ActConserves(k, a);
    if k.lib.error { ErrorIsFinal(k, a); } else { ActTight(k, a); }
  }
}
