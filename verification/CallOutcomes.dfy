// What the pieces of a synchronous call come to on any bytes at all, whoever sent them.
module CallOutcomes {
  import opened Ring
  import opened Connection
  import opened Protocol
  import opened Framing
  import opened SeatSpec
  import opened Libseat
  import opened Listeners

  // ---------------------------------------------------------------- messages in the background

  // Headers one after the other; messages in the background have no payload.
  function Headers(hs: seq<Header>): seq<byte> {
    if hs == [] then [] else EncodeHeader(hs[0]) + Headers(hs[1..])
  }

  function Opcodes(hs: seq<Header>): seq<u16> {
    if hs == [] then [] else (if IsEvent(hs[0].opcode) then [hs[0].opcode] else []) + Opcodes(hs[1..])
  }

  function PongsIn(hs: seq<Header>): nat {
    if hs == [] then 0 else (if hs[0].opcode == SERVER_PONG then 1 else 0) + PongsIn(hs[1..])
  }

  predicate AllBackground(hs: seq<Header>) {
    forall i :: 0 <= i < |hs| ==> hs[i].opcode in {SERVER_PONG, SERVER_ENABLE_SEAT, SERVER_DISABLE_SEAT}
  }

  // The same events in front of the list, newest first.
  predicate Posted(l: Lib, r: Lib, opcodes: seq<u16>) {
    && r.seen == l.seen + opcodes && |r.events| == |l.events| + |opcodes|
    && (forall i :: 0 <= i < |opcodes| ==>
          r.events[|opcodes| - 1 - i] == Pending(opcodes[i], |l.seen| + i))
    && r.events[|opcodes|..] == l.events
  }

  // `hs` came off the ring and `rest` is left.
  ghost predicate Absorbed(l: Lib, r: Lib, hs: seq<Header>, rest: seq<byte>) {
    && AllBackground(hs) && l.ring == Headers(hs) + rest && Posted(l, r, Opcodes(hs))
    && r == l.(ring := rest, events := r.events, seen := r.seen,
               awaiting := l.awaiting && PongsIn(hs) == 0, pongs := l.pongs + PongsIn(hs))
  }

  // What read_and_queue says of what is left.
  predicate Judged(l: Lib, scan: Scan, rest: seq<byte>, wanted: bool) {
    if |rest| < HEADER then scan == Scan(l, Nothing)
    else
      var h := DecodeHeader(rest[..HEADER]);
      && h.opcode !in {SERVER_PONG, SERVER_ENABLE_SEAT, SERVER_DISABLE_SEAT}
      && if !wanted then scan.found == Unexpected && Failed(l, scan.l)
         else scan == Scan(l, if HEADER + h.size <= |rest| then Response(h.opcode) else Partial)
  }

  // The error state: nothing stays pending.
  predicate Failed(l: Lib, r: Lib) {
    if l.error then r == l else r == l.(error := true, events := [], dropped := l.dropped + l.events)
  }

  lemma EncodesAgain(b: seq<byte>)
    requires |b| == HEADER
    ensures EncodeHeader(DecodeHeader(b)) == b
  {
  }

  // read_and_queue, for any bytes: it takes the messages in the background off the front, and stops at
  // the first header that is none.
  lemma {:induction false} ScanOutcome(l: Lib, wanted: bool) returns (hs: seq<Header>, rest: seq<byte>, m: Lib)
    ensures Absorbed(l, m, hs, rest) && Judged(m, ReadAndQueue(l, wanted), rest, wanted)
    decreases |l.ring|
  {
    hide Absorb, DecodeHeader, EncodeHeader, Absorbed;
    if |l.ring| >= HEADER && InBackground(NextHeader(l).opcode) {
      Shorter(l);
      var h := NextHeader(l);
      var more;
      more, rest, m := ScanOutcome(Absorb(l), wanted);
      hs := [h] + more;
      EncodesAgain(l.ring[..HEADER]);
      AbsorbedOne(l, m, h, more, rest);
    } else {
      hs, rest, m := [], l.ring, l;
      AbsorbedNone(l);
    }
  }

  lemma Shorter(l: Lib)
    requires |l.ring| >= HEADER
    ensures |Absorb(l).ring| < |l.ring|
  {
  }

  lemma AbsorbedNone(l: Lib)
    ensures Absorbed(l, l, [], l.ring)
  {
    assert l.seen + [] == l.seen;
  }

  lemma AbsorbedOne(l: Lib, m: Lib, h: Header, more: seq<Header>, rest: seq<byte>)
    requires |l.ring| >= HEADER && h == NextHeader(l) && InBackground(h.opcode) && Absorbed(Absorb(l), m, more, rest)
    requires EncodeHeader(h) == l.ring[..HEADER]
    ensures Absorbed(l, m, [h] + more, rest)
  {
    hide Posted, DecodeHeader, EncodeHeader;
    var hs := [h] + more;
    assert hs[1..] == more;
    assert Headers(hs) + rest == EncodeHeader(h) + (Headers(more) + rest);
    assert l.ring == l.ring[..HEADER] + l.ring[HEADER..];
    if h.opcode == SERVER_PONG {
      assert Opcodes(hs) == Opcodes(more);
      PostedPong(l, m, Opcodes(more));
    } else {
      PostedOne(l, m, h.opcode, Opcodes(more));
    }
  }

  lemma PostedPong(l: Lib, m: Lib, opcodes: seq<u16>)
    requires |l.ring| >= HEADER && NextHeader(l).opcode == SERVER_PONG && Posted(Absorb(l), m, opcodes)
    ensures Posted(l, m, opcodes)
  {
  }

  lemma PostedOne(l: Lib, m: Lib, opcode: u16, opcodes: seq<u16>)
    requires |l.ring| >= HEADER && NextHeader(l).opcode == opcode != SERVER_PONG && Posted(Absorb(l), m, opcodes)
    ensures Posted(l, m, [opcode] + opcodes)
  {
    var all, n := [opcode] + opcodes, |opcodes|;
    assert m.events[n..] == [Pending(opcode, |l.seen|)] + l.events;
    assert m.events[n + 1..] == m.events[n..][1..];
    forall i | 0 <= i < |all| ensures m.events[|all| - 1 - i] == Pending(all[i], |l.seen| + i) {
      if i == 0 { assert m.events[n..][0] == m.events[n]; }
    }
  }

  // ---------------------------------------------------------------- the wait for a reply

  // A poll that cannot be gone on from: a hangup, a failed receive, no room, or the end of the stream
  // with nothing left on the ring.
  predicate Fatal(l: Lib, p: Poll, fds: nat) {
    match p
    case Hangup => true
    case RecvFails(again) => !again
    case Arrives(bytes, more) =>
      |l.ring| >= CAP || fds + |more| > CAP / 4 || (l.ring == [] && bytes == [])
    case _ => false
  }

  // One that the wait gives up over without an error.
  predicate Passing(p: Poll) {
    p == PollFails || p == RecvFails(true)
  }

  // What arrives goes behind what is there, as much of it as fits.
  predicate Gained(l: Lib, r: Lib, p: Poll) {
    if p.Arrives? then
      && r == l.(ring := r.ring) && l.ring <= r.ring && r.ring[|l.ring|..] <= p.bytes
      && |r.ring| == if |l.ring| + |p.bytes| <= CAP then |l.ring| + |p.bytes| else CAP
    else r == l
  }

  // poll_connection
  lemma PollOutcome(l: Lib, p: Poll, fds: nat)
    ensures var q := PollOnce(l, p, fds);
            && (q.progress == Lost <==> Fatal(l, p, fds)) && (q.progress == Stalled <==> Passing(p))
            && if Fatal(l, p, fds) then Failed(l, q.l) else if Passing(p) then q.l == l else Gained(l, q.l, p)
  {
  }

  predicate Replied(l: Lib) {
    ReadAndQueue(l, true).found.Response? && ReadAndQueue(l, true).found.opcode != 0
  }

  // The states of a wait at its polls: no reply was there before the last, and none of the polls so far
  // ended it.
  ghost predicate Waits(l: Lib, polls: seq<Poll>, fds: nat, ls: seq<Lib>, ns: seq<nat>) {
    && 0 < |ls| == |ns| <= |polls| + 1 && ls[0] == l && ns[0] == fds
    && forall k {:trigger polls[k]} :: 0 <= k < |ls| - 1 ==>
         var m := ReadAndQueue(ls[k], true).l;
         && !Replied(ls[k]) && !Fatal(m, polls[k], ns[k]) && !Passing(polls[k])
         && Gained(m, ls[k + 1], polls[k])
         && ns[k + 1] == ns[k] + if polls[k].Arrives? then |polls[k].fds| else 0
  }

  // How it ends, with the reply or at a poll.
  ghost predicate Ends(polls: seq<Poll>, ls: seq<Lib>, ns: seq<nat>, w: Waited)
    requires 0 < |ls| == |ns|
  {
    var k := |ls| - 1;
    var m := ReadAndQueue(ls[k], true).l;
    if Replied(ls[k]) then w == Waited(m, Answered, ns[k])
    else if k >= |polls| then w == Waited(m, Blocked, ns[k])
    else if Fatal(m, polls[k], ns[k]) then w.verdict == Verdict.Failed && Failed(m, w.l)
    else Passing(polls[k]) && w == Waited(m, Abandoned, ns[k])
  }

  // read_until_response, for any polls: it ends with the first reply, or the first poll that ends it.
  lemma {:induction false} AwaitOutcome(l: Lib, polls: seq<Poll>, fds: nat) returns (ls: seq<Lib>, ns: seq<nat>)
    ensures Waits(l, polls, fds, ls, ns) && Ends(polls, ls, ns, Await(l, polls, fds))
    decreases |polls|
  {
    hide Fatal, Gained, PollOnce, ReadAndQueue;
    var m := ReadAndQueue(l, true).l;
    ls, ns := [l], [fds];
    if !Replied(l) && polls != [] {
      PollOutcome(m, polls[0], fds);
      FdsOutcome(m, polls[0], fds);
      var p := PollOnce(m, polls[0], fds);
      if p.progress == Going {
        var n := FdsAfter(m, polls[0], fds);
        var more, counts := AwaitOutcome(p.l, polls[1..], n);
        ls, ns := [l] + more, [fds] + counts;
        WaitsMore(l, polls, fds, more, counts);
        assert ls[|ls| - 1] == more[|more| - 1] && ns[|ns| - 1] == counts[|counts| - 1];
      }
    }
  }

  lemma FdsOutcome(l: Lib, p: Poll, fds: nat)
    ensures Passing(p) ==> FdsAfter(l, p, fds) == fds
    ensures !Fatal(l, p, fds) ==> FdsAfter(l, p, fds) == fds + if p.Arrives? then |p.fds| else 0
  {
  }

  lemma WaitsMore(l: Lib, polls: seq<Poll>, fds: nat, ls: seq<Lib>, ns: seq<nat>)
    requires polls != [] && 0 < |ls| == |ns| && Waits(ls[0], polls[1..], ns[0], ls, ns)
    requires var m := ReadAndQueue(l, true).l;
             && !Replied(l) && !Fatal(m, polls[0], fds) && !Passing(polls[0]) && Gained(m, ls[0], polls[0])
             && ns[0] == fds + if polls[0].Arrives? then |polls[0].fds| else 0
    ensures Waits(l, polls, fds, [l] + ls, [fds] + ns)
  {
    hide Fatal, Gained, ReadAndQueue, Replied;
    var all, counts := [l] + ls, [fds] + ns;
    forall k {:trigger polls[k]} | 0 <= k < |all| - 1
      ensures var m := ReadAndQueue(all[k], true).l;
              && !Replied(all[k]) && !Fatal(m, polls[k], counts[k]) && !Passing(polls[k])
              && Gained(m, all[k + 1], polls[k])
              && counts[k + 1] == counts[k] + if polls[k].Arrives? then |polls[k].fds| else 0
    {
      if k > 0 { assert polls[1..][k - 1] == polls[k] && all[k] == ls[k - 1] && all[k + 1] == ls[k]; }
    }
  }

  // ---------------------------------------------------------------- the reply

  // A seat name ends with its only NUL, or has none and room for one.
  predicate IsName(name: seq<byte>) {
    Terminated(name) || (|name| < 64 && forall i :: 0 <= i < |name| ==> name[i] != 0)
  }

  lemma NameOutcome(name: seq<byte>)
    ensures NameOk(name) <==> IsName(name)
  {
  }

  // The opcode of the reply to each request.
  predicate IsReplyTo(req: Request, opcode: u16) {
    match req
    case OpenSeatReq => opcode == 0x8001
    case CloseSeatReq => opcode == 0x8002
    case OpenDeviceReq => opcode == 0x8003
    case CloseDeviceReq(_) => opcode == 0x8004
    case DisableSeatReq => opcode == 0x8009
    case SwitchSessionReq(_) => opcode == 0x8008
    case PingReq => opcode == 0x8007
  }

  // The reply a request asks for; that of open_device comes with a descriptor.
  predicate Fits(req: Request, f: Frame, fd: bool) {
    && IsReplyTo(req, f.opcode)
    && match req
       case OpenSeatReq =>
         && |f.payload| >= 2 && DecodeU16(f.payload[0], f.payload[1]) == |f.payload| - 2
         && |f.payload| - 2 <= 64 && IsName(f.payload[2..])
       case OpenDeviceReq => |f.payload| == 4 && fd
       case _ => f.payload == []
  }

  predicate IsError(f: Frame) {
    f.opcode == 0xFFFF && |f.payload| == 4
  }

  // What is read of a reply: a whole frame that fits, or a whole error; anything else is the end of the
  // connection.
  lemma ReplyOutcome(l: Lib, req: Request, fd: bool)
    ensures var got, b := TakeReply(l, req, fd), l.ring;
            if Complete(b) && Fits(req, Front(b), fd) then
              && got.outcome == Fine && got.l == l.(ring := b[FrontLength(b)..])
              && (req == OpenDeviceReq ==> got.value == DecodeInt(Front(b).payload))
            else if Complete(b) && IsError(Front(b)) then
              got.outcome == Declined && got.l == l.(ring := b[FrontLength(b)..])
            else got.outcome == Broken && got.l.error && Failed(l.(ring := got.l.ring), got.l)
  {
    hide DecodeInt, NameOk, IsName, Terminated;
    if req == OpenSeatReq {
      OpenSeatReply(l);
    } else if req == OpenDeviceReq {
      OpenDeviceReply(l, fd);
    } else {
      BareReply(l, req, fd);
    }
  }

  // read_header
  lemma HeaderRead(l: Lib, expected: u16, size: nat, variable: bool)
    requires expected != SERVER_ERROR
    ensures var got, b := ReadHeader(l, expected, size, variable), l.ring;
            if |b| >= HEADER && DecodeHeader(b[..HEADER]).opcode == expected
               && (var n := DecodeHeader(b[..HEADER]).size; if variable then n >= size else n == size)
            then got == Parsed(l.(ring := b[HEADER..]), Fine, DecodeHeader(b[..HEADER]).size)
            else if Complete(b) && IsError(Front(b)) then
              got.outcome == Declined && got.l == l.(ring := b[FrontLength(b)..])
            else got.outcome == Broken && got.l.error && Failed(l.(ring := got.l.ring), got.l)
  {
    hide DecodeHeader;
    if |l.ring| >= 8 { assert l.ring[HEADER..][4..] == l.ring[8..]; }
  }

  lemma BareReply(l: Lib, req: Request, fd: bool)
    requires req != OpenSeatReq && req != OpenDeviceReq
    ensures var got, b := TakeReply(l, req, fd), l.ring;
            if Complete(b) && Fits(req, Front(b), fd) then
              got.outcome == Fine && got.l == l.(ring := b[FrontLength(b)..])
            else if Complete(b) && IsError(Front(b)) then
              got.outcome == Declined && got.l == l.(ring := b[FrontLength(b)..])
            else got.outcome == Broken && got.l.error && Failed(l.(ring := got.l.ring), got.l)
  {
    hide DecodeHeader, ReadName, ReadDevice, ReadHeader;
    HeaderRead(l, ReplyTo(req), 0, false);
  }

  lemma OpenDeviceReply(l: Lib, fd: bool)
    ensures var got, b := TakeReply(l, OpenDeviceReq, fd), l.ring;
            if Complete(b) && Fits(OpenDeviceReq, Front(b), fd) then
              && got.outcome == Fine && got.l == l.(ring := b[FrontLength(b)..])
              && got.value == DecodeInt(Front(b).payload)
            else if Complete(b) && IsError(Front(b)) then
              got.outcome == Declined && got.l == l.(ring := b[FrontLength(b)..])
            else got.outcome == Broken && got.l.error && Failed(l.(ring := got.l.ring), got.l)
  {
    hide DecodeHeader, ReadName, DecodeInt, ReadHeader;
    HeaderRead(l, ReplyTo(OpenDeviceReq), 4, false);
    if |l.ring| >= 8 {
      assert l.ring[HEADER..][4..] == l.ring[8..];
      assert l.ring[HEADER..][..4] == l.ring[HEADER..8];
    }
  }

  lemma OpenSeatReply(l: Lib)
    ensures var got, b := TakeReply(l, OpenSeatReq, true), l.ring;
            && TakeReply(l, OpenSeatReq, false) == got
            && if Complete(b) && Fits(OpenSeatReq, Front(b), true) then
                 got.outcome == Fine && got.l == l.(ring := b[FrontLength(b)..])
               else if Complete(b) && IsError(Front(b)) then
                 got.outcome == Declined && got.l == l.(ring := b[FrontLength(b)..])
               else got.outcome == Broken && got.l.error && Failed(l.(ring := got.l.ring), got.l)
  {
    hide DecodeHeader, ReadDevice, ReadName, IsName, DecodeU16, ReadHeader;
    var b := l.ring;
    HeaderRead(l, ReplyTo(OpenSeatReq), 2, true);
    if |b| >= HEADER {
      var n := DecodeHeader(b[..HEADER]).size;
      if 2 <= n {
        NameRead(Skip(l, HEADER), n);
        if HEADER + n <= |b| {
          assert b[HEADER..][..n] == b[HEADER..HEADER + n];
          assert b[HEADER..][n..] == b[HEADER + n..];
        }
      }
    }
  }

  // The length and the name, behind the header.
  lemma NameRead(l: Lib, n: nat)
    requires n >= 2
    ensures var got, b := ReadName(l, n), l.ring;
            if n <= |b| && DecodeU16(b[0], b[1]) == n - 2 && n - 2 <= 64 && IsName(b[..n][2..]) then
              got.outcome == Fine && got.l == l.(ring := b[n..])
            else got.outcome == Broken && got.l.error && Failed(l.(ring := got.l.ring), got.l)
  {
    hide NameOk, IsName, DecodeU16;
    if n <= |l.ring| {
      assert l.ring[2..][..n - 2] == l.ring[..n][2..];
      assert l.ring[2..][n - 2..] == l.ring[n..];
      NameOutcome(l.ring[..n][2..]);
    }
  }

  // ---------------------------------------------------------------- the read of a dispatch

  // A caller who has been served, or does not want to wait, is not kept waiting: then a hangup goes
  // unnoticed, and a failed read is no error state.
  lemma BetweenOutcome(h: Held, now: bool, p: Poll)
    ensures var b := Between(h, now, p);
            && (b.h.l.error <==> h.l.error || (!now && Fatal(h.l, p, h.fds)))
            && (now ==> b.h.l == h.l.(ring := b.h.l.ring))
            && (if Fatal(h.l, p, h.fds) || Passing(p) then b.h.l.ring == h.l.ring else Gained(h.l, b.h.l, p))
            && (b.read == Positive <==> p.Arrives? && !Fatal(h.l, p, h.fds))
            && (b.read == Again ==> !p.Arrives?)
  {
    PollOutcome(h.l, p, h.fds);
    if p.Arrives? && h.l.ring == [] && p.bytes == [] { assert h.l.ring + p.bytes == []; }
  }

  // Who has nothing to do and is willing to wait notices a hangup; everybody else is served as if there
  // were nothing to read.
  lemma DispatchOutcome(h: Held, immediate: bool, first: Script, second: Script)
    requires !h.l.error && AfterHalf(h, first).count != -1
    ensures var lost := AfterDispatch(h, immediate, Hangup, first, second);
            if AfterHalf(h, first).count > 0 || immediate
            then lost == AfterDispatch(h, immediate, RecvFails(true), first, second)
            else lost.count == -1 && lost.h.l.error
  {
    hide AfterHalf;
  }

  lemma {:induction false} HeadersLength(hs: seq<Header>)
    ensures |Headers(hs)| == HEADER * |hs|
  {
    if hs != [] { HeadersLength(hs[1..]); }
  }

  // Half a dispatch counts the messages it took off the ring and the events it ran, and fails exactly if
  // it came upon something else.
  lemma HalfOutcome(h: Held, script: Script) returns (hs: seq<Header>, rest: seq<byte>, m: Lib)
    ensures Absorbed(h.l, m, hs, rest)
    ensures AfterHalf(h, script).count == if |rest| < HEADER then |hs| + |m.events| else -1
    ensures |rest| >= HEADER ==> Failed(m, AfterHalf(h, script).h.l)
  {
    hide AfterEvents, Posted, Failed;
    hs, rest, m := ScanOutcome(h.l, false);
    HeadersLength(hs);
  }

  // check_pending_events: where events are pending and no pong is awaited a ping goes out, or the
  // connection fails.
  lemma CheckOutcome(l: Lib, sent: bool) returns (hs: seq<Header>, rest: seq<byte>, m: Lib)
    ensures Absorbed(l, m, hs, rest)
    ensures var r := CheckPending(l, sent);
            if |rest| >= HEADER then Failed(m, r)
            else if m.events == [] || m.awaiting then r == m
            else if sent then r == m.(awaiting := true, pings := m.pings + 1)
            else Failed(m, r)
  {
    hide ReadAndQueue, Absorbed;
    hs, rest, m := ScanOutcome(l, false);
  }

  lemma SeatNeedsNoFd(b: seq<byte>, fd: bool)
    ensures Complete(b) ==> (Fits(OpenSeatReq, Front(b), fd) <==> Fits(OpenSeatReq, Front(b), true))
  {
  }

  // _open_seat: a seat means the right reply; anything else but a wait that goes on ends the backend.
  lemma OpenSeatOutcome(h: Held, flushed: bool, polls: seq<Poll>)
    ensures var o, w := WithSeat(h, flushed, polls), Await(h.l, polls, h.fds);
            && (o.ok <==>
                flushed && w.verdict == Answered && Complete(w.l.ring) && Fits(OpenSeatReq, Front(w.l.ring), true))
            && (o.ok ==> o.h == Held(w.l.(ring := w.l.ring[FrontLength(w.l.ring)..]), w.fds))
            && (!o.ok ==> o.h.l.error || (flushed && w.verdict == Blocked && o.h == Held(w.l, w.fds)))
  {
    hide Await, TakeReply, Fits, Failed;
    var w := Await(h.l, polls, h.fds);
    if flushed && w.verdict == Answered {
      ReplyOutcome(w.l, OpenSeatReq, w.fds > 0);
      SeatNeedsNoFd(w.l.ring, w.fds > 0);
    }
  }
}
