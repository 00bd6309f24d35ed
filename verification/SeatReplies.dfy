// Requests and replies: one reply of the right kind for every request that keeps its connection.
module SeatReplies {
  import opened SeatSpec
  import opened SeatInvariant
  import opened SeatMoves
  import opened SeatRuns

  function Said(e: Effect, c: ClientId): seq<Reply> {
    if e.Replied? && e.c == c then [e.reply] else []
  }

  // The replies queued for a client, oldest first.
  function Replies(log: seq<Effect>, c: ClientId): seq<Reply> {
    if log == [] then [] else Replies(log[..|log| - 1], c) + Said(log[|log| - 1], c)
  }

  // The replies the client library accepts for a request.
  predicate Answers(req: Request, reply: Reply) {
    match req
    case OpenSeatReq => reply == SeatOpened
    case CloseSeatReq => reply == SeatClosed
    case OpenDeviceReq => reply.DeviceOpened? || reply == Error
    case CloseDeviceReq(_) => reply == DeviceClosed || reply == Error
    case DisableSeatReq => reply == SeatDisabled || reply == Error
    case SwitchSessionReq(_) => reply == SessionSwitched || reply == Error
    case PingReq => reply == Pong
  }

  lemma SaidEmit(log: seq<Effect>, e: Effect, c: ClientId)
    ensures Replies(log + [e], c) == Replies(log, c) + Said(e, c)
  {
    assert (log + [e])[..|log|] == log;
  }

  lemma MoveSaysNothing(s: Seat, m: Move, c: ClientId)
    requires Legal(s, m) && !(m.Note? && m.e.Replied?)
    ensures Replies(Do(s, m).log, c) == Replies(s.log, c)
  {
    LogAfter(s, m);
    var es := Emitted(s, m);
    if es == [] { assert s.log + es == s.log; } else { SaidEmit(s.log, es[0], c); }
  }

  lemma {:induction false} InnerSaysNothing(s: Seat, ms: seq<Move>, r: Seat, c: ClientId)
    requires Leads(s, ms, r) && Silent(ms)
    ensures Replies(r.log, c) == Replies(s.log, c)
    decreases ms
  {
    if ms != [] {
      MoveSaysNothing(s, ms[0], c);
      InnerSaysNothing(Do(s, ms[0]), ms[1..], r, c);
    }
  }

  // From `s` to `r` exactly these replies were queued, all for one client.
  ghost predicate Speaks(s: Seat, r: Seat, c: ClientId, said: seq<Reply>) {
    forall d :: Replies(r.log, d) == Replies(s.log, d) + if d == c then said else []
  }

  lemma SilentPath(s: Seat, ms: seq<Move>, r: Seat, c: ClientId)
    requires Leads(s, ms, r) && Silent(ms)
    ensures Speaks(s, r, c, [])
  {
    forall d ensures Replies(r.log, d) == Replies(s.log, d) { InnerSaysNothing(s, ms, r, d); }
  }

  lemma AnswerSpeaks(s: Seat, u: Seat, c: ClientId, reply: Reply, io: Io)
    requires Speaks(s, u, c, [])
    ensures Speaks(s, Answer(u, c, reply, io).s, c, if io.put then [reply] else [])
  {
    if io.put {
      forall d ensures Replies(u.log + [Replied(c, reply)], d) == Replies(u.log, d) + Said(Replied(c, reply), d) {
        SaidEmit(u.log, Replied(c, reply), d);
      }
    }
  }

  lemma AddSpeaks(s: Seat, c: ClientId, io: Io)
    requires Inv(s) && c in s.clients
    ensures Speaks(s, AddClient(s, c, io).s, c, [])
  {
    assert AddClient(s, c, io).s.log == s.log;
  }

  lemma OpenSeatSpeaks(s: Seat, c: ClientId, io: Io)
    requires Inv(s) && c in s.clients
    ensures var h := HandleOpenSeat(s, c, io); Speaks(s, h.s, c, if h.ok then [SeatOpened] else [])
  {
    var added := AddClient(s, c, io);
    AddSpeaks(s, c, io);
    if added.ok && io.put {
      OpenSeatIs(s, c, io);
      var u := Emit(added.s, Replied(c, SeatOpened));
      AnswerSpeaks(s, added.s, c, SeatOpened, io);
      var ms := OpenAddedMoves(s, c, io);
      SilentPath(u, ms, OpenClient(u, c, io), c);
    }
  }

  lemma OpenDeviceSpeaks(s: Seat, c: ClientId, io: Io) returns (reply: Reply)
    requires Member(s, c)
    ensures var h := HandleOpenDevice(s, c, io);
            Speaks(s, h.s, c, if h.ok then [reply] else []) && (reply.DeviceOpened? || reply == Error)
  {
    reply := Error;
    var got := OpenDevice(s, c, io);
    if got.at.None? {
      AnswerSpeaks(s, s, c, Error, io);
    } else if !io.dup {
      var ms := OpenThenDrop(s, c, io);
      SilentPath(s, ms, CloseDevice(got.s, c, got.at.value), c);
      AnswerSpeaks(s, CloseDevice(got.s, c, got.at.value), c, Error, io);
    } else {
      var ms := OpenDeviceMoves(s, c, io);
      SilentPath(s, ms, got.s, c);
      reply := DeviceOpened(got.s.clients[c].devices[got.at.value].id);
      if io.putFd { AnswerSpeaks(s, got.s, c, reply, io); }
    }
  }

  lemma CloseDeviceSpeaks(s: Seat, c: ClientId, id: int, io: Io) returns (reply: Reply)
    requires Member(s, c)
    ensures var h := HandleCloseDevice(s, c, id, io);
            Speaks(s, h.s, c, if h.ok then [reply] else []) && (reply == DeviceClosed || reply == Error)
  {
    var i := IndexOfId(s.clients[c].devices, id);
    if id == 0 || i == |s.clients[c].devices| {
      reply := Error;
      AnswerSpeaks(s, s, c, Error, io);
    } else {
      reply := DeviceClosed;
      One(s, DropRef(c, i));
      SilentPath(s, [DropRef(c, i)], CloseDevice(s, c, i), c);
      AnswerSpeaks(s, CloseDevice(s, c, i), c, DeviceClosed, io);
    }
  }

  // A handler that does not fail queues one reply of the kind the request calls for; one that
  // fails queues none. Nobody else is answered.
  lemma HandlerAnswersOnce(s: Seat, c: ClientId, req: Request, io: Io) returns (reply: Reply)
    requires Inv(s) && c in s.clients
    ensures var h := Handle(s, c, req, io); Speaks(s, h.s, c, if h.ok then [reply] else []) && Answers(req, reply)
  {
    hide SetNextSession, AckDisable, Ready, RemoveClient, HandleOpenSeat;
    IsLinked(s);
    if s.clients[c].seated { SeatedIsMember(s, c); }
    match req
    case PingReq => reply := Pong; AnswerSpeaks(s, s, c, Pong, io);
    case OpenSeatReq => reply := SeatOpened; OpenSeatSpeaks(s, c, io);
    case CloseSeatReq =>
      reply := SeatClosed;
      if s.clients[c].seated {
        var ms := RemoveMoves(s, c, io);
        SilentPath(s, ms, RemoveClient(s, c, io), c);
        AnswerSpeaks(s, RemoveClient(s, c, io), c, SeatClosed, io);
      }
    case OpenDeviceReq =>
      reply := Error;
      if s.clients[c].seated { reply := OpenDeviceSpeaks(s, c, io); }
    case CloseDeviceReq(id) =>
      reply := Error;
      if s.clients[c].seated { reply := CloseDeviceSpeaks(s, c, id, io); }
    case DisableSeatReq =>
      reply := Error;
      if s.clients[c].seated {
        var acked := AckDisable(s, c, io);
        reply := if acked.ok then SeatDisabled else Error;
        var ms := AckMoves(s, c, io);
        SilentPath(s, ms, acked.s, c);
        AnswerSpeaks(s, acked.s, c, reply, io);
      }
    case SwitchSessionReq(session) =>
      reply := Error;
      if s.clients[c].seated {
        var queued := SetNextSession(s, c, session, io);
        reply := if queued.ok then SessionSwitched else Error;
        var ms := SetNextSessionMoves(s, c, session, io);
        SilentPath(s, ms, queued.s, c);
        AnswerSpeaks(s, queued.s, c, reply, io);
      }
  }

  lemma DestroySpeaks(s: Seat, c: ClientId, io: Io)
    requires Inv(s) && c in s.clients
    ensures Speaks(s, Destroy(s, c, io), c, [])
  {
    var ms := DestroyMoves(s, c, io);
    SilentPath(s, ms, Destroy(s, c, io), c);
  }

  // Over a whole turn: a request whose connection survives got exactly one reply, of a kind the
  // client library accepts for it, and nobody else got any.
  lemma OneReplyPerRequest(s: Seat, t: Turn) returns (reply: Reply)
    requires Inv(s) && t.step.Serve? && t.step.c in s.clients
    ensures Answers(t.step.req, reply)
    ensures var c := t.step.c;
            var r := Take(s, t);
            && (c in r.clients ==> Speaks(s, r, c, [reply]))
            && (c !in r.clients ==> Speaks(s, r, c, []) || Speaks(s, r, c, [reply]))
  {
    hide Handle;
    var c := t.step.c;
    reply := HandlerAnswersOnce(s, c, t.step.req, t.io);
    HandleKeeps(s, c, t.step.req, t.io);
    var h := Handle(s, c, t.step.req, t.io);
    DestroySpeaks(h.s, c, t.io2);
  }

  // A turn that serves no request answers nobody.
  lemma NobodyIsAnswered(s: Seat, t: Turn, c: ClientId)
    requires Inv(s) && !t.step.Serve?
    ensures Replies(Take(s, t).log, c) == Replies(s.log, c)
  {
    var ms := TurnMoves(s, t.step, t.io, t.io2);
    InnerSaysNothing(s, ms, Take(s, t), c);
  }
}
