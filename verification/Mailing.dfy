// From the daemon's log to letters: what one turn of the daemon posts to one client.
module Mailing {
  import opened Options
  import opened Ring
  import opened Protocol
  import opened SeatSpec
  import opened SeatInvariant
  import opened SeatMoves
  import opened SeatRuns
  import opened SeatReplies
  import opened Letters

  // The events that went onto the ring of a client, oldest first: those sent, and those whose send
  // failed after that. The next flush of the connection takes the latter along.
  function ToldIn(e: Effect, c: ClientId): seq<u16> {
    if e == EnableSent(c) || e == EnableLeft(c) then [EventOf(true)]
    else if e == DisableSent(c) || e == DisableLeft(c) then [EventOf(false)]
    else []
  }

  function AllTold(log: seq<Effect>, c: ClientId): seq<u16> {
    if log == [] then [] else AllTold(log[..|log| - 1], c) + ToldIn(log[|log| - 1], c)
  }

  function PostOne(e: Effect, c: ClientId, ask: Ask, payload: seq<byte>): seq<Letter> {
    match e
    case EnableSent(d) => if d == c then [Told(true)] else []
    case DisableSent(d) => if d == c then [Told(false)] else []
    case EnableLeft(d) => if d == c then [Told(true)] else []
    case DisableLeft(d) => if d == c then [Told(false)] else []
    case Replied(d, reply) =>
      if d != c then [] else if reply == Pong then [PongLetter] else [Re(Result(reply, payload, ask))]
    case _ => []
  }

  // The letters behind a stretch of the log; a reply in it is the reply to `ask`.
  function Post(log: seq<Effect>, c: ClientId, ask: Ask, payload: seq<byte>): seq<Letter> {
    if log == [] then [] else Post(log[..|log| - 1], c, ask, payload) + PostOne(log[|log| - 1], c, ask, payload)
  }

  // What replies turn into.
  function ResultOf(reply: Reply, ask: Ask, payload: seq<byte>): seq<Result> {
    if reply == Pong then [] else [Result(reply, payload, ask)]
  }

  function ResultsOf(replies: seq<Reply>, ask: Ask, payload: seq<byte>): seq<Result> {
    if replies == [] then []
    else ResultsOf(replies[..|replies| - 1], ask, payload) + ResultOf(replies[|replies| - 1], ask, payload)
  }

  function PongOf(reply: Reply): nat {
    if reply == Pong then 1 else 0
  }

  function PongsOf(replies: seq<Reply>): nat {
    if replies == [] then 0 else PongsOf(replies[..|replies| - 1]) + PongOf(replies[|replies| - 1])
  }

  lemma OneMoreReply(before: seq<Reply>, reply: Reply, ask: Ask, payload: seq<byte>)
    ensures ResultsOf(before + [reply], ask, payload) == ResultsOf(before, ask, payload) + ResultOf(reply, ask, payload)
    ensures PongsOf(before + [reply]) == PongsOf(before) + PongOf(reply)
  {
    assert (before + [reply])[..|before|] == before;
  }

  lemma EventOfOne(e: Effect, c: ClientId, ask: Ask, payload: seq<byte>)
    ensures Events(PostOne(e, c, ask, payload)) == ToldIn(e, c)
  {
    var x := PostOne(e, c, ask, payload);
    if x != [] { OneLetter(x[0]); }
  }

  lemma ReplyOfOne(e: Effect, c: ClientId, ask: Ask, payload: seq<byte>)
    ensures var x, said := PostOne(e, c, ask, payload), Said(e, c);
            && Results(x) == (if said == [] then [] else ResultOf(said[0], ask, payload))
            && Pongs(x) == (if said == [] then 0 else PongOf(said[0]))
  {
    var x := PostOne(e, c, ask, payload);
    if x != [] { OneLetter(x[0]); }
  }

  lemma {:induction false} PostEvents(log: seq<Effect>, c: ClientId, ask: Ask, payload: seq<byte>)
    ensures Events(Post(log, c, ask, payload)) == AllTold(log, c)
  {
    if log != [] {
      var n := |log| - 1;
      PostEvents(log[..n], c, ask, payload);
      EventOfOne(log[n], c, ask, payload);
      EventsConcat(Post(log[..n], c, ask, payload), PostOne(log[n], c, ask, payload));
    }
  }

  // What the letters of a stretch of the log hold, in terms of the replies in it.
  ghost predicate Holds(letters: seq<Letter>, replies: seq<Reply>, ask: Ask, payload: seq<byte>) {
    Results(letters) == ResultsOf(replies, ask, payload) && Pongs(letters) == PongsOf(replies)
  }

  lemma HoldsMore(letters: seq<Letter>, replies: seq<Reply>, e: Effect, c: ClientId, ask: Ask, payload: seq<byte>)
    requires Holds(letters, replies, ask, payload)
    ensures Holds(letters + PostOne(e, c, ask, payload), replies + Said(e, c), ask, payload)
  {
    ReplyOfOne(e, c, ask, payload);
    PartsConcat(letters, PostOne(e, c, ask, payload));
    if Said(e, c) == [] {
      assert replies + Said(e, c) == replies;
    } else {
      OneMoreReply(replies, Said(e, c)[0], ask, payload);
    }
  }

  lemma {:induction false} PostReplies(log: seq<Effect>, c: ClientId, ask: Ask, payload: seq<byte>)
    ensures Holds(Post(log, c, ask, payload), Replies(log, c), ask, payload)
  {
    if log != [] {
      var n := |log| - 1;
      PostReplies(log[..n], c, ask, payload);
      HoldsMore(Post(log[..n], c, ask, payload), Replies(log[..n], c), log[n], c, ask, payload);
    }
  }

  // ---------------------------------------------------------------- one turn

  lemma {:induction false} LogGrows(s: Seat, ms: seq<Move>, r: Seat)
    requires Leads(s, ms, r)
    ensures s.log <= r.log
    decreases ms
  {
    if ms != [] {
      LogAfter(s, ms[0]);
      LogGrows(Do(s, ms[0]), ms[1..], r);
    }
  }

  lemma {:induction false} RepliesConcat(a: seq<Effect>, b: seq<Effect>, c: ClientId)
    ensures Replies(a + b, c) == Replies(a, c) + Replies(b, c)
  {
    if b == [] {
      assert a + b == a;
    } else {
      var n := |b| - 1;
      RepliesConcat(a, b[..n], c);
      Associative(a, b[..n], [b[n]]);
      assert b[..n] + [b[n]] == b;
      SaidEmit(a + b[..n], b[n], c);
      SaidEmit(b[..n], b[n], c);
      Associative(Replies(a, c), Replies(b[..n], c), Said(b[n], c));
    }
  }

  lemma ToldMore(log: seq<Effect>, e: Effect, c: ClientId)
    ensures AllTold(log + [e], c) == AllTold(log, c) + ToldIn(e, c)
  {
    assert (log + [e])[..|log|] == log;
  }

  lemma {:induction false} ToldConcat(a: seq<Effect>, b: seq<Effect>, c: ClientId)
    ensures AllTold(a + b, c) == AllTold(a, c) + AllTold(b, c)
  {
    if b == [] {
      assert a + b == a;
    } else {
      var n := |b| - 1;
      ToldConcat(a, b[..n], c);
      Associative(a, b[..n], [b[n]]);
      assert b[..n] + [b[n]] == b;
      ToldMore(a + b[..n], b[n], c);
      ToldMore(b[..n], b[n], c);
      Associative(AllTold(a, c), AllTold(b[..n], c), ToldIn(b[n], c));
    }
  }

  // The entries of the log that are new in `r`.
  function Entries(s: Seat, r: Seat): seq<Effect> {
    if |s.log| <= |r.log| then r.log[|s.log|..] else []
  }

  ghost predicate Extends(s: Seat, r: Seat) {
    r.log == s.log + Entries(s, r)
  }

  lemma PathExtends(s: Seat, ms: seq<Move>, r: Seat)
    requires Leads(s, ms, r)
    ensures Extends(s, r)
  {
    LogGrows(s, ms, r);
  }

  // A turn only ever adds to the log.
  lemma TurnExtends(s: Seat, t: Turn)
    requires Inv(s)
    ensures Extends(s, Take(s, t))
  {
    var ms := TurnMoves(s, t.step, t.io, t.io2);
    PathExtends(s, ms, Take(s, t));
  }

  lemma SaidBetween(s: Seat, r: Seat, c: ClientId, said: seq<Reply>)
    requires Extends(s, r) && Replies(r.log, c) == Replies(s.log, c) + said
    ensures Replies(Entries(s, r), c) == said
  {
    RepliesConcat(s.log, Entries(s, r), c);
    var before := Replies(s.log, c);
    assert said == (before + said)[|before|..];
    assert Replies(Entries(s, r), c) == (before + Replies(Entries(s, r), c))[|before|..];
  }

  // A turn that serves this client.
  predicate Serves(t: Turn, c: ClientId) {
    t.step.Serve? && t.step.c == c
  }

  // What a turn has to say to a client: one reply of the right kind if it serves a request of
  // that client, none only if the client is gone afterwards; and nothing in any other turn.
  predicate Says(s: Seat, t: Turn, r: Seat, c: ClientId, said: seq<Reply>) {
    if Serves(t, c) && c in s.clients then
      if said == [] then c !in r.clients else |said| == 1 && Answers(t.step.req, said[0])
    else said == []
  }

  lemma TurnSays(s: Seat, t: Turn, c: ClientId) returns (said: seq<Reply>)
    requires Inv(s)
    ensures Says(s, t, Take(s, t), c, said) && Replies(Take(s, t).log, c) == Replies(s.log, c) + said
  {
    said := [];
    if !t.step.Serve? {
      NobodyIsAnswered(s, t, c);
    } else if t.step.c in s.clients {
      var reply := OneReplyPerRequest(s, t);
      if t.step.c == c && Replies(Take(s, t).log, c) != Replies(s.log, c) { said := [reply]; }
    }
  }

  lemma TurnPosts(s: Seat, t: Turn, c: ClientId) returns (said: seq<Reply>)
    requires Inv(s)
    ensures var r := Take(s, t); Extends(s, r) && Says(s, t, r, c, said) && Replies(Entries(s, r), c) == said
  {
    said := TurnSays(s, t, c);
    TurnExtends(s, t);
    SaidBetween(s, Take(s, t), c, said);
  }

  // A client the daemon has forgotten.
  predicate Forgotten(s: Seat, c: ClientId) {
    c !in s.clients && c < s.nextId
  }

  lemma ForgottenMove(s: Seat, m: Move, c: ClientId)
    requires Legal(s, m) && Forgotten(s, c)
    ensures Forgotten(Do(s, m), c)
  {
  }

  // It never comes back.
  lemma StaysForgotten(s: Seat, t: Turn, c: ClientId)
    requires Inv(s) && Forgotten(s, c)
    ensures Forgotten(Take(s, t), c)
  {
    forall u, m | Ready(u) && Forgotten(u, c) && Legal(u, m) ensures Forgotten(Do(u, m), c) { ForgottenMove(u, m, c); }
    TurnKeeps(u => Forgotten(u, c), m => true, s, t);
  }

  // An id that was given out.
  predicate Issued(s: Seat, c: ClientId) {
    c < s.nextId
  }

  lemma IssuedMove(s: Seat, m: Move, c: ClientId)
    requires Legal(s, m) && Issued(s, c)
    ensures Issued(Do(s, m), c)
  {
  }

  lemma StaysIssued(s: Seat, t: Turn, c: ClientId)
    requires Inv(s) && Issued(s, c)
    ensures Issued(Take(s, t), c)
  {
    forall u, m | Ready(u) && Issued(u, c) && Legal(u, m) ensures Issued(Do(u, m), c) { IssuedMove(u, m, c); }
    TurnKeeps(u => Issued(u, c), m => true, s, t);
  }
}
