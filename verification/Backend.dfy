// libseat/backend/seatd.c as an object; every method is proved against the functions of Libseat.
module Backend {
  import opened Options
  import opened Ring
  import opened Connection
  import opened Protocol
  import Framing
  import opened SeatSpec
  import opened Libseat
  import opened Listeners

  class BackendSeatd {
    const conn: Incoming
    var events: seq<Pending>
    var lists: seq<seq<Pending>>
    var awaitingPong: bool
    var error: bool

    // History.
    var seen: seq<u16>
    var executed: seq<Pending>
    var dropped: seq<Pending>
    var pings: nat
    var pongs: nat

    ghost predicate Valid()
      reads this, conn, conn.Repr
    {
      conn.Valid() && this !in conn.Repr
    }

    ghost function View(): Lib
      reads this, conn.input
    {
      Lib(conn.input.held, events, lists, awaitingPong, error, seen, executed, dropped, pings, pongs)
    }

    // With the number of descriptors received.
    ghost function State(): Held
      reads this, conn.input, conn.fds
    {
      Held(View(), |conn.fds.queue|)
    }

    constructor (conn: Incoming)
      requires conn.Valid() && conn.input.held == []
      ensures Valid() && this.conn == conn && View() == Fresh()
    {
      this.conn := conn;
      events, lists, awaitingPong, error := [], [], false, false;
      seen, executed, dropped, pings, pongs := [], [], [], 0, 0;
    }

    // cleanup: the loop that frees what is pending
    method DropEvents()
      requires Valid()
      modifies this`events, this`dropped
      ensures Valid() && View() == Cleanup(old(View()))
    {
      while events != []
        invariant dropped + events == old(dropped + events)
        decreases |events|
      {
        dropped, events := dropped + [events[0]], events[1..];
      }
    }

    method Fail()
      requires Valid()
      modifies this`events, this`dropped, this`error
      ensures Valid() && View() == SetError(old(View()))
    {
      if error { return; }
      error := true;
      DropEvents();
    }

    method Queue(opcode: u16)
      requires Valid()
      modifies this`events, this`seen
      ensures Valid() && View() == QueueEvent(old(View()), opcode)
    {
      events, seen := [Pending(opcode, |seen|)] + events, seen + [opcode];
    }

    // conn_get
    method Get(n: nat) returns (r: Option<seq<byte>>)
      requires Valid()
      modifies this`events, this`dropped, this`error, conn.input
      ensures Valid()
      ensures r.Some? <==> n <= |old(conn.input.held)|
      ensures r.Some? ==> r.value == old(conn.input.held)[..n] && View() == Skip(old(View()), n)
      ensures r.None? ==> View() == SetError(old(View()))
    {
      r := conn.Get(n);
      if r.None? { Fail(); }
    }

    // read_and_queue; `wanted` is `opcode != NULL`
    method Scan(wanted: bool) returns (found: Found)
      requires Valid()
      modifies this, conn.input
      ensures Valid()
      ensures Libseat.Scan(View(), found) == ReadAndQueue(old(View()), wanted)
    {
      ghost var target := ReadAndQueue(View(), wanted);
      var done := false;
      found := Nothing;
      while !done
        invariant Valid()
        invariant target == if done then Libseat.Scan(View(), found) else ReadAndQueue(View(), wanted)
        decreases |conn.input.held|, !done
      {
        done, found := ScanOne(wanted);
      }
    }

    method ScanOne(wanted: bool) returns (done: bool, found: Found)
      requires Valid()
      modifies this, conn.input
      ensures Valid()
      ensures ReadAndQueue(old(View()), wanted) ==
                if done then Libseat.Scan(View(), found) else ReadAndQueue(View(), wanted)
      ensures |conn.input.held| <= |old(conn.input.held)| && (!done ==> |conn.input.held| < |old(conn.input.held)|)
    {
      hide DecodeHeader;
      ghost var l := View();
      var h := conn.Get(HEADER);
      if h.None? { return true, Nothing; }
      var header := DecodeHeader(h.value);
      if header.opcode == SERVER_PONG {
        awaitingPong, pongs := false, pongs + 1;
        assert View() == Absorb(l);
        return false, Nothing;
      }
      if IsEvent(header.opcode) {
        Queue(header.opcode);
        assert View() == Absorb(l);
        return false, Nothing;
      }
      found := Stop(header, wanted, l);
      return true, found;
    }

    // The default branch of read_and_queue: the header goes back onto the ring.
    method Stop(header: Header, wanted: bool, ghost l: Lib) returns (found: Found)
      requires Valid() && |l.ring| >= HEADER && View() == Skip(l, HEADER)
      requires |l.ring| <= CAP && conn.input.Behind(HEADER) == l.ring[..HEADER]
      requires header == DecodeHeader(l.ring[..HEADER])
      modifies this, conn.input
      ensures Valid()
      ensures if !wanted then View() == SetError(l) && found == Unexpected
              else View() == l && found == if |l.ring| - HEADER >= header.size then Response(header.opcode) else Partial
    {
      var pending := conn.Pending();
      found := if pending >= header.size then Response(header.opcode) else Partial;
      if !wanted {
        Fail();
        found := Unexpected;
      }
      conn.Restore(HEADER);
      assert conn.input.held == l.ring;
    }

    // poll_connection
    method PollConnection(p: Poll) returns (progress: Progress)
      requires Valid()
      modifies this, conn.Repr
      ensures Valid() && Polled(View(), progress) == PollOnce(old(View()), p, |old(conn.fds.queue)|)
      ensures progress == Going ==> conn.fds.queue == old(conn.fds.queue) + if p.Arrives? then p.fds else []
      ensures |conn.fds.queue| == FdsAfter(old(View()), p, |old(conn.fds.queue)|)
    {
      match p
      case Hangup => Fail(); progress := Lost;
      case PollFails => progress := Stalled;
      case Retry => progress := Going;
      case RecvFails(again) =>
        if again { return Stalled; }
        Fail();
        progress := Lost;
      case Arrives(bytes, fds) => progress := Receive(bytes, fds);
    }

    // connection_read behind poll_connection
    method Receive(bytes: seq<byte>, fds: seq<Fd>) returns (progress: Progress)
      requires Valid()
      modifies this, conn.Repr
      ensures Valid() && Polled(View(), progress) == PollOnce(old(View()), Arrives(bytes, fds), |old(conn.fds.queue)|)
      ensures progress == Going ==> conn.fds.queue == old(conn.fds.queue) + fds
      ensures |conn.fds.queue| == FdsAfter(old(View()), Arrives(bytes, fds), |old(conn.fds.queue)|)
    {
      hide Flatten, SetError, FdQueue.Valid;
      ghost var l := View();
      FlattenOne(fds);
      var pending := conn.Pending();
      var chunk := if pending + |bytes| <= CAP then bytes else bytes[..CAP - pending];
      assert chunk == Clip(l, bytes);
      var n, closed := conn.Read(Received.Got(chunk, [fds]));
      if n.None? || n.value == 0 {
        Fail();
        return Lost;
      }
      return Going;
    }

    // read_until_response, once the request is flushed
    method AwaitReply(polls: seq<Poll>) returns (verdict: Verdict)
      requires Valid()
      modifies this, conn.Repr
      ensures Valid()
      ensures var w := Await(old(View()), polls, |old(conn.fds.queue)|);
              View() == w.l && verdict == w.verdict && |conn.fds.queue| == w.fds
    {
      ghost var l: Lib, fds: nat := View(), |conn.fds.queue|;
      ghost var target := Await(l, polls, fds);
      var i, going := 0, true;
      verdict := Blocked;
      while going
        invariant Valid() && 0 <= i <= |polls| && l == View() && fds == |conn.fds.queue|
        invariant target == if going then Await(l, polls[i..], fds) else Waited(l, verdict, fds)
        decreases |polls| - i, going
      {
        going, verdict, l, fds := AwaitOnce(polls[i..], l, fds);
        if going { i := i + 1; }
      }
    }

    // One turn of its loop.
    method AwaitOnce(polls: seq<Poll>, ghost l: Lib, ghost fds: nat)
      returns (going: bool, verdict: Verdict, ghost l2: Lib, ghost fds2: nat)
      requires Valid() && l == View() && fds == |conn.fds.queue|
      modifies this, conn.Repr
      ensures Valid() && l2 == View() && fds2 == |conn.fds.queue|
      ensures going ==> polls != []
      ensures Await(l, polls, fds) == if going then Await(l2, polls[1..], fds2) else Waited(l2, verdict, fds2)
    {
      var found := Scan(true);
      going, verdict, l2, fds2 := PollAfter(found, polls, View(), fds);
    }

    method PollAfter(found: Found, polls: seq<Poll>, ghost l: Lib, ghost fds: nat)
      returns (going: bool, verdict: Verdict, ghost l2: Lib, ghost fds2: nat)
      requires Valid() && l == View() && fds == |conn.fds.queue|
      modifies this, conn.Repr
      ensures Valid() && l2 == View() && fds2 == |conn.fds.queue|
      ensures going ==> polls != []
      ensures AwaitMore(Libseat.Scan(l, found), polls, fds) ==
              if going then Await(l2, polls[1..], fds2) else Waited(l2, verdict, fds2)
    {
      if found.Response? && found.opcode != 0 { return false, Answered, l, fds; }
      if polls == [] { return false, Blocked, l, fds; }
      var progress := PollConnection(polls[0]);
      match progress
      case Going => return true, Blocked, View(), |conn.fds.queue|;
      case Stalled => return false, Abandoned, View(), |conn.fds.queue|;
      case Lost => return false, Failed, View(), |conn.fds.queue|;
    }

    // read_header
    method TakeHeader(expected: u16, size: nat, variable: bool) returns (outcome: Outcome, length: nat)
      requires Valid()
      modifies this, conn.input
      ensures Valid() && Parsed(View(), outcome, length) == ReadHeader(old(View()), expected, size, variable)
    {
      length := 0;
      var h := Get(HEADER);
      if h.None? { return Broken, 0; }
      var header := DecodeHeader(h.value);
      if header.opcode != expected {
        if header.opcode != SERVER_ERROR || header.size != 4 {
          Fail();
          return Broken, 0;
        }
        var msg := Get(4);
        return if msg.None? then Broken else Declined, 0;
      }
      if (!variable && header.size != size) || (variable && header.size < size) {
        Fail();
        return Broken, 0;
      }
      return Fine, header.size;
    }

    static method CheckName(name: seq<byte>) returns (ok: bool)
      ensures ok == NameOk(name)
    {
      var padded := name;
      if name == [] || (|name| < MAX_SEAT_LEN && name[|name| - 1] != 0) { padded := name + [0]; }
      ok := Framing.CheckTerminated(padded);
    }

    // What _open_seat does with the name of the seat. Where it gives up it destroys the backend.
    method TakeName(size: nat) returns (outcome: Outcome)
      requires Valid() && size >= 2
      modifies this, conn.input
      ensures Valid() && Parsed(View(), outcome, 0) == ReadName(old(View()), size)
    {
      ghost var l := View();
      var len := Get(2);
      if len.None? { return Broken; }
      var nameLen := DecodeU16(len.value[0], len.value[1]);
      ghost var l1 := View();
      if nameLen != size - 2 || nameLen > MAX_SEAT_LEN {
        Fail();
        return Broken;
      }
      var name := Get(nameLen);
      if name.None? { return Broken; }
      var terminated := CheckName(name.value);
      if !terminated {
        Fail();
        return Broken;
      }
      return Fine;
    }

    // check_pending_events
    method CheckPendingEvents(sent: bool)
      requires Valid()
      modifies this, conn.input
      ensures Valid() && View() == CheckPending(old(View()), sent)
    {
      var found := Scan(false);
      if found == Unexpected || events == [] || awaitingPong { return; }
      if !sent {
        Fail();
        return;
      }
      awaitingPong, pings := true, pings + 1;
    }

    // The device id and the descriptor of open_device.
    method TakeDevice() returns (outcome: Outcome, fd: Option<Fd>, id: int)
      requires Valid()
      modifies this, conn.Repr
      ensures Valid() && Parsed(View(), outcome, id) == ReadDevice(old(View()), old(conn.fds.queue) != [])
      ensures outcome == Fine ==> fd == Some(old(conn.fds.queue)[0]) && conn.fds.queue == old(conn.fds.queue)[1..]
      ensures outcome != Fine ==> conn.fds.queue == old(conn.fds.queue)
    {
      var msg := Get(4);
      if msg.None? { return Broken, None, 0; }
      fd := conn.GetFd();
      if fd.None? {
        Fail();
        return Broken, None, 0;
      }
      return Fine, fd, DecodeInt(msg.value);
    }

    // What the function behind each request reads off the ring.
    method TakeReplyTo(req: Request) returns (outcome: Outcome, fd: Option<Fd>, value: int)
      requires Valid()
      modifies this, conn.Repr
      ensures Valid()
      ensures var got := TakeReply(old(View()), req, old(conn.fds.queue) != []);
              View() == got.l && outcome == got.outcome && (outcome == Fine ==> value == got.value)
      ensures if outcome == Fine && req == OpenDeviceReq
              then
                && old(conn.fds.queue) != []
                && fd == Some(old(conn.fds.queue)[0]) && conn.fds.queue == old(conn.fds.queue)[1..]
              else conn.fds.queue == old(conn.fds.queue)
    {
      fd := None;
      var size := if req == OpenSeatReq then 2 else if req == OpenDeviceReq then 4 else 0;
      outcome, value := TakeHeader(ReplyTo(req), size, req == OpenSeatReq);
      if outcome != Fine { return; }
      if req == OpenSeatReq {
        outcome := TakeName(value);
        value := 0;
      } else if req == OpenDeviceReq {
        outcome, fd, value := TakeDevice();
      }
    }

    // open_device, close_device, switch_session and disable_seat
    method Call(req: Request, flushed: bool, polls: seq<Poll>, pinged: bool)
      returns (verdict: Verdict, outcome: Outcome, fd: Option<Fd>, value: int)
      requires Valid() && Plain(req)
      modifies this, conn.Repr
      ensures Valid()
      ensures old(error) ==> View() == old(View()) && verdict == Failed
      ensures !old(error) && !flushed ==> View() == SetError(old(View())) && verdict == Failed
      ensures !old(error) && flushed ==>
              Called(old(View()), req, polls, |old(conn.fds.queue)|, pinged, View(), verdict, outcome, value)
      ensures State() == AfterCall(old(State()), req, flushed, polls, pinged)
    {
      hide Await, TakeReply, CheckPending;
      outcome, fd, value := Broken, None, 0;
      verdict := Failed;
      if error { return; }
      if !flushed {
        Fail();
        return;
      }
      verdict := AwaitReply(polls);
      if verdict == Answered { outcome, fd, value := Conclude(req, pinged); }
    }

    // What these do with the reply.
    method Conclude(req: Request, pinged: bool) returns (outcome: Outcome, fd: Option<Fd>, value: int)
      requires Valid()
      modifies this, conn.Repr
      ensures Valid() && State() == AfterReply(old(State()), req, pinged)
      ensures var got := TakeReply(old(View()), req, old(conn.fds.queue) != []);
              outcome == got.outcome && (outcome == Fine ==> value == got.value)
      ensures outcome == Fine && req == OpenDeviceReq ==>
              old(conn.fds.queue) != [] && fd == Some(old(conn.fds.queue)[0])
    {
      hide TakeReply, CheckPending;
      outcome, fd, value := TakeReplyTo(req);
      CheckPendingEvents(pinged);
    }

    // _open_seat; what it opens runs the listener, everything else destroys the backend.
    method OpenSeat(flushed: bool, polls: seq<Poll>, script: Script) returns (verdict: Verdict, ok: bool)
      requires Valid() && !error
      modifies this, conn.Repr
      ensures Valid()
      ensures var o := WithSeat(old(State()), flushed, polls);
              verdict == o.verdict && ok == o.ok && State() == if ok then AfterEvents(o.h, script) else o.h
    {
      hide AfterEvents;
      verdict, ok := Failed, false;
      if !flushed {
        Fail();
        return;
      }
      verdict := AwaitReply(polls);
      if verdict == Blocked { return; }
      if verdict == Answered {
        var outcome, fd, value := TakeReplyTo(OpenSeatReq);
        ok := outcome == Fine;
      }
      if ok { var count := ExecuteEvents(script); } else { Fail(); }
    }

    // close_seat, up to where it runs the listener.
    method SayGoodbye(flushed: bool, polls: seq<Poll>) returns (done: bool)
      requires Valid()
      modifies this, conn.Repr
      ensures var c := WithoutSeat(old(State()), flushed, polls); Valid() && State() == c.h && done == c.ok
    {
      done := true;
      if error { return; }
      if !flushed {
        Fail();
      } else {
        var verdict := AwaitReply(polls);
        if verdict == Blocked { return false; }
      }
      var outcome, length := TakeHeader(ReplyTo(CloseSeatReq), 0, false);
    }

    // close_seat; the backend is destroyed whatever comes of it.
    method CloseSeat(flushed: bool, polls: seq<Poll>, script: Script) returns (done: bool)
      requires Valid()
      modifies this, conn.Repr
      ensures Valid()
      ensures var c := WithoutSeat(old(State()), flushed, polls);
              done == c.ok && View() == if done then Cleanup(SetError(AfterEvents(c.h, script).l)) else c.h.l
    {
      hide WithoutSeat, AfterEvents;
      done := SayGoodbye(flushed, polls);
      if !done { return; }
      var count := ExecuteEvents(script);
      Fail();
      DropEvents();
    }

    // The list that execute_events takes is its own, and on the stack while listeners run.
    method TakeEvents()
      requires Valid()
      modifies this`events, this`lists
      ensures Valid() && View() == BeginExecute(old(View()))
    {
      lists, events := [events] + lists, [];
    }

    method NextEvent() returns (opcode: u16)
      requires Valid() && lists != [] && lists[0] != []
      modifies this`lists, this`executed
      ensures Valid() && View() == ExecuteNext(old(View())) && opcode == old(lists)[0][0].opcode
    {
      var ev := lists[0][0];
      lists, executed := lists[0 := lists[0][1..]], executed + [ev];
      return ev.opcode;
    }

    method EventsDone()
      requires Valid() && lists != [] && lists[0] == []
      modifies this`lists
      ensures Valid() && View() == EndExecute(old(View()))
    {
      lists := lists[1..];
    }

    // execute_events
    method ExecuteEvents(script: Script) returns (count: nat)
      requires Valid()
      modifies this, conn.Repr
      ensures Valid() && count == |old(events)| && State() == AfterEvents(old(State()), script)
      decreases ScriptSize(script), 1
    {
      TakeEvents();
      count := 0;
      var rest := script;
      ghost var target := AfterList(State(), script);
      while lists != [] && lists[0] != []
        invariant Valid() && ScriptSize(rest) <= ScriptSize(script) && AfterList(State(), rest) == target
        invariant lists != [] && count + |lists[0]| == |old(events)|
        decreases |lists[0]|
      {
        rest := RunOne(rest);
        count := count + 1;
      }
      EventsDone();
    }

    // One turn of its loop.
    method RunOne(script: Script) returns (rest: Script)
      requires Valid() && lists != [] && lists[0] != []
      modifies this, conn.Repr
      ensures Valid() && ScriptSize(rest) <= ScriptSize(script) && lists == old(lists)[0 := old(lists)[0][1..]]
      ensures AfterList(State(), rest) == AfterList(old(State()), script)
      decreases ScriptSize(script), 0
    {
      var opcode := NextEvent();
      rest := script;
      if script.On? {
        UsesGoOn(State(), script.uses);
        React(script.uses);
        rest := script.rest;
      }
    }

    // A listener uses the backend.
    method React(uses: Uses)
      requires Valid()
      modifies this, conn.Repr
      ensures Valid() && State() == AfterUses(old(State()), uses)
      decreases UsesSize(uses), 5
    {
      var rest := uses;
      while rest.Then?
        invariant Valid() && AfterUses(State(), rest) == AfterUses(old(State()), uses)
        invariant UsesSize(rest) <= UsesSize(uses)
        decreases UsesSize(rest)
      {
        Apply(rest.use);
        rest := rest.rest;
      }
    }

    method Apply(use: Use)
      requires Valid()
      modifies this, conn.Repr
      ensures Valid() && State() == AfterUse(old(State()), use)
      decreases UseSize(use), 6
    {
      match use
      case Calling(req, flushed, polls, pinged) =>
        if Plain(req) {
          var verdict, outcome, fd, value := Call(req, flushed, polls, pinged);
        }
      case Dispatching(immediate, poll, before, after) =>
        var count := Dispatch(immediate, poll, before, after);
    }

    // Either half of dispatch: read_and_queue, then execute_events.
    method DispatchHalf(script: Script) returns (count: int)
      requires Valid()
      modifies this, conn.Repr
      ensures Valid() && count >= -1 && Round(State(), count) == AfterHalf(old(State()), script)
      decreases ScriptSize(script), 2
    {
      var before := conn.Pending();
      var found := Scan(false);
      if found == Unexpected { return -1; }
      var after := conn.Pending();
      var n := ExecuteEvents(script);
      count := Packets(before, after) + n;
    }

    // connection_read where dispatch does not poll first.
    method ReadAtOnce(p: Poll) returns (read: Reading)
      requires Valid()
      modifies conn.Repr
      ensures Valid() && Interval(State(), read) == ReadNow(old(State()), p)
    {
      if !p.Arrives? { return if p.RecvFails? && !p.again then Failure else Again; }
      FlattenOne(p.fds);
      var pending := conn.Pending();
      var chunk := if pending + |p.bytes| <= CAP then p.bytes else p.bytes[..CAP - pending];
      assert chunk == Clip(View(), p.bytes);
      var n, closed := conn.Read(Received.Got(chunk, [p.fds]));
      return if n.None? then Failure else if n.value == 0 then Zero else Positive;
    }

    // poll_connection where it does.
    method PollFirst(p: Poll) returns (read: Reading)
      requires Valid()
      modifies this, conn.Repr
      ensures Valid() && Interval(State(), read) == ReadPolled(old(State()), p)
    {
      var progress := PollConnection(p);
      match progress
      case Going => return if p.Arrives? then Positive else Zero;
      case Stalled => return if p.PollFails? then Failure else Again;
      case Lost => return Failure;
    }

    // What dispatch does between its halves.
    method ReadBetween(now: bool, p: Poll) returns (read: Reading)
      requires Valid()
      modifies this, conn.Repr
      ensures Valid() && Interval(State(), read) == Between(old(State()), now, p)
    {
      hide ReadNow, ReadPolled;
      if now { read := ReadAtOnce(p); } else { read := PollFirst(p); }
    }

    // dispatch, with what the listener does in its two rounds
    method Dispatch(immediate: bool, p: Poll, first: Script, second: Script) returns (count: int)
      requires Valid()
      modifies this, conn.Repr
      ensures Valid() && count >= -1
      ensures Round(State(), count) == AfterDispatch(old(State()), immediate, p, first, second)
      decreases ScriptSize(first) + ScriptSize(second), 4
    {
      hide AfterHalf, AfterRead, Between;
      if error { return -1; }
      var before := DispatchHalf(first);
      if before == -1 { return -1; }
      var read := ReadBetween(before > 0 || immediate, p);
      count := DispatchRead(before, read, second);
    }

    // ... with its read behind it.
    method DispatchRead(before: nat, read: Reading, second: Script) returns (count: int)
      requires Valid()
      modifies this, conn.Repr
      ensures Valid() && count >= -1
      ensures Round(State(), count) == AfterRead(before, Interval(old(State()), read), second)
      decreases ScriptSize(second), 3
    {
      hide AfterHalf;
      if read == Zero { return before; }
      if read == Failure { return -1; }
      var after := DispatchHalf(second);
      return if after == -1 then -1 else before + after;
    }
  }
}
