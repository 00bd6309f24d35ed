// The client library's side of a connection (libseat/backend/seatd.c): what one call does to the
// input ring, the queue of pending events and the flags. `Backend` below is the code, `Lib` its
// state as a value.
module Libseat {
  import opened Ring
  import opened Connection
  import opened Protocol
  import opened Framing
  import opened SeatSpec

  const MAX_SEAT_LEN: int := 64

  // `serial` is a history variable: the how-manieth event off the connection this is.
  datatype Pending = Pending(opcode: u16, serial: nat)

  datatype Lib = Lib(
    ring: seq<byte>,
    events: seq<Pending>,       // pending_events, newest first
    lists: seq<seq<Pending>>,   // the local lists of the running execute_events calls, innermost first
    awaiting: bool,
    error: bool,
    seen: seq<u16>,             // history: every event that came off the connection
    executed: seq<Pending>,     // history: events handed to the listener
    dropped: seq<Pending>,      // history: events freed by cleanup
    pings: nat,                 // history: pings sent
    pongs: nat)                 // history: pongs read

  function Fresh(): Lib {
    Lib([], [], [], false, false, [], [], [], 0, 0)
  }

  predicate IsEvent(opcode: u16) {
    opcode == SERVER_ENABLE_SEAT || opcode == SERVER_DISABLE_SEAT
  }

  function Cleanup(l: Lib): Lib {
    l.(events := [], dropped := l.dropped + l.events)
  }

  function SetError(l: Lib): Lib {
    if l.error then l else Cleanup(l.(error := true))
  }

  function QueueEvent(l: Lib, opcode: u16): Lib {
    l.(events := [Pending(opcode, |l.seen|)] + l.events, seen := l.seen + [opcode])
  }

  function Skip(l: Lib, n: nat): Lib
    requires n <= |l.ring|
  {
    l.(ring := l.ring[n..])
  }

  // Messages that are nobody's reply.
  predicate InBackground(opcode: u16) {
    opcode == SERVER_PONG || IsEvent(opcode)
  }

  function NextHeader(l: Lib): Header
    requires |l.ring| >= HEADER
  {
    DecodeHeader(l.ring[..HEADER])
  }

  function Absorb(l: Lib): Lib
    requires |l.ring| >= HEADER
  {
    var rest := l.(ring := l.ring[HEADER..]);
    if NextHeader(l).opcode == SERVER_PONG then rest.(awaiting := false, pongs := l.pongs + 1)
    else QueueEvent(rest, NextHeader(l).opcode)
  }

  // What stopped read_and_queue: nothing more to read, a complete reply, the beginning of one, or
  // a reply where none was expected.
  datatype Found = Nothing | Response(opcode: u16) | Partial | Unexpected

  datatype Scan = Scan(l: Lib, found: Found)

  function ReadAndQueue(l: Lib, wanted: bool): Scan
    decreases |l.ring|
  {
    if |l.ring| < HEADER then Scan(l, Nothing)
    else if InBackground(NextHeader(l).opcode) then ReadAndQueue(Absorb(l), wanted)
    else if !wanted then Scan(SetError(l), Unexpected)
    else if |l.ring| - HEADER >= NextHeader(l).size then Scan(l, Response(NextHeader(l).opcode))
    else Scan(l, Partial)
  }

  // ---------------------------------------------------------------- waiting

  // What poll(2) and, if the socket is readable, recvmsg(2) have to say.
  datatype Poll = Hangup | PollFails | Retry | RecvFails(again: bool) | Arrives(bytes: seq<byte>, fds: seq<Fd>)

  // `Stalled` is a failure that does not put the backend into its error state.
  datatype Progress = Going | Stalled | Lost

  datatype Polled = Polled(l: Lib, progress: Progress)

  // recvmsg fills no more than the free part of the ring.
  function Clip(l: Lib, bytes: seq<byte>): seq<byte> {
    var free := CAP - |l.ring|;
    if free <= 0 then [] else if |bytes| <= free then bytes else bytes[..free]
  }

  // poll_connection, with `fds` descriptors already queued
  function PollOnce(l: Lib, p: Poll, fds: nat): Polled {
    match p
    case Hangup => Polled(SetError(l), Lost)
    case PollFails => Polled(l, Stalled)
    case Retry => Polled(l, Going)
    case RecvFails(again) => if again then Polled(l, Stalled) else Polled(SetError(l), Lost)
    case Arrives(bytes, more) =>
      if |l.ring| >= CAP || fds + |more| > CAP / 4 then Polled(SetError(l), Lost)
      else if l.ring + Clip(l, bytes) == [] then Polled(SetError(l), Lost)
      else Polled(l.(ring := l.ring + Clip(l, bytes)), Going)
  }

  // What comes with a read that fails is closed.
  function FdsAfter(l: Lib, p: Poll, fds: nat): nat {
    if p.Arrives? && |l.ring| < CAP && fds + |p.fds| <= CAP / 4 then fds + |p.fds| else fds
  }

  datatype Verdict = Answered | Blocked | Abandoned | Failed

  // `fds` descriptors are queued.
  datatype Waited = Waited(l: Lib, verdict: Verdict, fds: nat)

  // read_until_response, once the request is flushed; `Blocked` when it is still waiting after
  // these polls, `Abandoned` when it gave up with the backend still in use.
  function Await(l: Lib, polls: seq<Poll>, fds: nat): Waited
    decreases |polls|, 1
  {
    AwaitMore(ReadAndQueue(l, true), polls, fds)
  }

  function AwaitMore(scan: Scan, polls: seq<Poll>, fds: nat): Waited
    decreases |polls|, 0
  {
    if scan.found.Response? && scan.found.opcode != 0 then Waited(scan.l, Answered, fds)
    else if polls == [] then Waited(scan.l, Blocked, fds)
    else
      var p := PollOnce(scan.l, polls[0], fds);
      var more := FdsAfter(scan.l, polls[0], fds);
      if p.progress == Going then Await(p.l, polls[1..], more)
      else if p.progress == Lost then Waited(p.l, Failed, more)
      else Waited(p.l, Abandoned, more)
  }

  // ---------------------------------------------------------------- replies

  datatype Outcome = Fine | Declined | Broken

  // `value` is the size of what is still to be read, or what was read.
  datatype Parsed = Parsed(l: Lib, outcome: Outcome, value: int)

  function Break(l: Lib): Parsed {
    Parsed(SetError(l), Broken, 0)
  }

  function ReadHeader(l: Lib, expected: u16, size: nat, variable: bool): (p: Parsed)
    ensures p.outcome == Fine ==> if variable then p.value >= size else p.value == size
  {
    if |l.ring| < HEADER then Break(l)
    else
      var h := DecodeHeader(l.ring[..HEADER]);
      var l1 := Skip(l, HEADER);
      if h.opcode != expected then
        if h.opcode != SERVER_ERROR || h.size != 4 || |l1.ring| < 4 then Break(l1)
        else Parsed(Skip(l1, 4), Declined, 0)
      else if (if variable then h.size < size else h.size != size) then Break(l1)
      else Parsed(l1, Fine, h.size)
  }

  // A daemon that sends the name without its NUL is put up with.
  predicate NameOk(name: seq<byte>) {
    var padded := if name == [] || (|name| < MAX_SEAT_LEN && name[|name| - 1] != 0) then name + [0] else name;
    Terminated(padded)
  }

  function ReadName(l: Lib, size: nat): Parsed
    requires size >= 2
  {
    if |l.ring| < 2 then Break(l)
    else
      var len := DecodeU16(l.ring[0], l.ring[1]);
      var l1 := Skip(l, 2);
      if len != size - 2 || len > MAX_SEAT_LEN || len > |l1.ring| then Break(l1)
      else if !NameOk(l1.ring[..len]) then Break(Skip(l1, len))
      else Parsed(Skip(l1, len), Fine, 0)
  }

  function ReadDevice(l: Lib, fd: bool): Parsed {
    if |l.ring| < 4 then Break(l)
    else if !fd then Break(Skip(l, 4))
    else Parsed(Skip(l, 4), Fine, DecodeInt(l.ring[..4]))
  }

  function ReplyTo(req: Request): u16 {
    match req
    case OpenSeatReq => SERVER_SEAT_OPENED
    case CloseSeatReq => SERVER_SEAT_CLOSED
    case OpenDeviceReq => SERVER_DEVICE_OPENED
    case CloseDeviceReq(_) => SERVER_DEVICE_CLOSED
    case DisableSeatReq => SERVER_SEAT_DISABLED
    case SwitchSessionReq(_) => SERVER_SESSION_SWITCHED
    case PingReq => SERVER_PONG
  }

  // What the function behind a request reads once a reply is there; `fd` tells whether its
  // descriptor is too.
  function TakeReply(l: Lib, req: Request, fd: bool): Parsed {
    var size := if req == OpenSeatReq then 2 else if req == OpenDeviceReq then 4 else 0;
    var got := ReadHeader(l, ReplyTo(req), size, req == OpenSeatReq);
    if got.outcome != Fine then got
    else if req == OpenSeatReq then ReadName(got.l, got.value)
    else if req == OpenDeviceReq then ReadDevice(got.l, fd)
    else got
  }

  // check_pending_events; `sent` tells whether the ping goes out.
  function CheckPending(l: Lib, sent: bool): Lib {
    var scan := ReadAndQueue(l, false);
    if scan.found == Unexpected then scan.l else Remind(scan.l, sent)
  }

  // A ping goes out if there are events pending and no pong is on its way.
  function Remind(l: Lib, sent: bool): Lib {
    if l.events == [] || l.awaiting then l
    else if !sent then SetError(l)
    else l.(awaiting := true, pings := l.pings + 1)
  }

  // A synchronous call that found the backend in use and got its request out.
  predicate Called(l: Lib, req: Request, polls: seq<Poll>, fds: nat, pinged: bool,
                   r: Lib, verdict: Verdict, outcome: Outcome, value: int) {
    var w := Await(l, polls, fds);
    && verdict == w.verdict
    && if verdict == Answered then
         var got := TakeReply(w.l, req, w.fds > 0);
         outcome == got.outcome && (outcome == Fine ==> value == got.value) && r == CheckPending(got.l, pinged)
       else r == w.l
  }

  // ---------------------------------------------------------------- listeners

  function BeginExecute(l: Lib): Lib {
    l.(lists := [l.events] + l.lists, events := [])
  }

  // The oldest entry of the innermost list goes to the listener.
  function ExecuteNext(l: Lib): Lib
    requires l.lists != [] && l.lists[0] != []
  {
    l.(lists := l.lists[0 := l.lists[0][1..]], executed := l.executed + [l.lists[0][0]])
  }

  function EndExecute(l: Lib): Lib
    requires l.lists != [] && l.lists[0] == []
  {
    l.(lists := l.lists[1..])
  }

  // execute_events with a listener that does not call back.
  function RunAll(l: Lib): Lib {
    l.(executed := l.executed + l.events, events := [])
  }

  // ---------------------------------------------------------------- every event exactly once

  function Flat(lists: seq<seq<Pending>>): multiset<Pending> {
    if lists == [] then multiset{} else multiset(lists[0]) + Flat(lists[1..])
  }

  function Arrivals(seen: seq<u16>): multiset<Pending> {
    if seen == [] then multiset{}
    else Arrivals(seen[..|seen| - 1]) + multiset{Pending(seen[|seen| - 1], |seen| - 1)}
  }

  // The pending events are the last ones that came in, newest first.
  predicate NewestFirst(l: Lib) {
    && |l.events| <= |l.seen|
    && forall i :: 0 <= i < |l.events| ==>
         l.events[i].serial == |l.seen| - 1 - i && l.events[i].opcode == l.seen[l.events[i].serial]
  }

  // Every event that came off the connection is in exactly one place.
  predicate Conserved(l: Lib) {
    NewestFirst(l) &&
    multiset(l.events) + Flat(l.lists) + multiset(l.executed) + multiset(l.dropped) == Arrivals(l.seen)
  }

  lemma SetErrorConserves(l: Lib)
    requires Conserved(l)
    ensures Conserved(SetError(l)) && SetError(l).error
  {
  }

  lemma OneMoreArrival(seen: seq<u16>, opcode: u16)
    ensures Arrivals(seen + [opcode]) == Arrivals(seen) + multiset{Pending(opcode, |seen|)}
  {
    assert (seen + [opcode])[..|seen|] == seen;
  }

  lemma QueueConserves(l: Lib, opcode: u16)
    requires Conserved(l)
    ensures Conserved(QueueEvent(l, opcode))
  {
    OneMoreArrival(l.seen, opcode);
    QueuedFirst(l, opcode);
  }

  lemma QueuedFirst(l: Lib, opcode: u16)
    requires NewestFirst(l)
    ensures NewestFirst(QueueEvent(l, opcode))
  {
    var r := QueueEvent(l, opcode);
    assert forall i :: 0 < i < |r.events| ==> r.events[i] == l.events[i - 1];
  }

  lemma AbsorbConserves(l: Lib)
    requires Conserved(l) && |l.ring| >= HEADER
    ensures Conserved(Absorb(l))
  {
    if NextHeader(l).opcode != SERVER_PONG { QueueConserves(l.(ring := l.ring[HEADER..]), NextHeader(l).opcode); }
  }

  // What taking in one message and failing both keep, read_and_queue keeps.
  lemma {:induction false} ScanKeeps(P: Lib -> bool, l: Lib, wanted: bool)
    requires P(l) && forall k: Lib :: P(k) ==> P(SetError(k)) && (|k.ring| >= HEADER ==> P(Absorb(k)))
    ensures P(ReadAndQueue(l, wanted).l)
    decreases |l.ring|
  {
    if |l.ring| >= HEADER && InBackground(NextHeader(l).opcode) { ScanKeeps(P, Absorb(l), wanted); }
  }

  lemma {:induction false} SurpriseIsError(l: Lib, wanted: bool)
    ensures ReadAndQueue(l, wanted).found == Unexpected ==> ReadAndQueue(l, wanted).l.error
    decreases |l.ring|
  {
    if |l.ring| >= HEADER && InBackground(NextHeader(l).opcode) { SurpriseIsError(Absorb(l), wanted); }
  }

  // Waiting for a reply, it does not fail.
  lemma {:induction false} WantedIsSafe(l: Lib)
    ensures ReadAndQueue(l, true).l.error == l.error && ReadAndQueue(l, true).found != Unexpected
    decreases |l.ring|
  {
    if |l.ring| >= HEADER && InBackground(NextHeader(l).opcode) { WantedIsSafe(Absorb(l)); }
  }

  // Without a reply to wait for, everything complete is read.
  lemma {:induction false} ScanReadsAll(l: Lib)
    ensures var scan := ReadAndQueue(l, false);
            scan.found == Unexpected || (scan.found == Nothing && |scan.l.ring| < HEADER)
    decreases |l.ring|
  {
    if |l.ring| >= HEADER && InBackground(NextHeader(l).opcode) { ScanReadsAll(Absorb(l)); }
  }

  lemma ScanConserves(l: Lib, wanted: bool)
    requires Conserved(l)
    ensures Conserved(ReadAndQueue(l, wanted).l)
  {
    forall k: Lib | Conserved(k) ensures Conserved(SetError(k)) && (|k.ring| >= HEADER ==> Conserved(Absorb(k))) {
      SetErrorConserves(k);
      if |k.ring| >= HEADER { AbsorbConserves(k); }
    }
    ScanKeeps(k => Conserved(k), l, wanted);
  }

  // Reading a reply changes nothing but the ring, unless it fails.
  predicate OnlyRead(l: Lib, r: Lib) {
    r.(ring := l.ring) == l || r.(ring := l.ring) == SetError(l)
  }

  lemma HeaderOnlyReads(l: Lib, expected: u16, size: nat, variable: bool)
    ensures OnlyRead(l, ReadHeader(l, expected, size, variable).l)
    ensures var got := ReadHeader(l, expected, size, variable); got.outcome == Fine ==> got.l == l.(ring := got.l.ring)
  {
  }

  lemma NameOnlyReads(l: Lib, size: int)
    ensures size >= 2 ==> OnlyRead(l, ReadName(l, size).l)
  {
  }

  lemma BodyOnlyReads(l: Lib, size: int, fd: bool)
    ensures OnlyRead(l, ReadDevice(l, fd).l) && (size >= 2 ==> OnlyRead(l, ReadName(l, size).l))
  {
    NameOnlyReads(l, size);
    hide ReadName;
  }

  lemma ReplyOnlyReads(l: Lib, req: Request, fd: bool)
    ensures OnlyRead(l, TakeReply(l, req, fd).l)
  {
    var size := if req == OpenSeatReq then 2 else if req == OpenDeviceReq then 4 else 0;
    HeaderOnlyReads(l, ReplyTo(req), size, req == OpenSeatReq);
    var got := ReadHeader(l, ReplyTo(req), size, req == OpenSeatReq);
    BodyOnlyReads(got.l, got.value, fd);
  }

  lemma ReplyConserves(l: Lib, req: Request, fd: bool)
    requires Conserved(l)
    ensures Conserved(TakeReply(l, req, fd).l)
  {
    ReplyOnlyReads(l, req, fd);
    SetErrorConserves(l);
  }

  lemma RemindConserves(l: Lib, sent: bool)
    requires Conserved(l)
    ensures Conserved(Remind(l, sent))
  {
    SetErrorConserves(l);
  }

  lemma CheckConserves(l: Lib, sent: bool)
    requires Conserved(l)
    ensures Conserved(CheckPending(l, sent))
  {
    ScanConserves(l, false);
    RemindConserves(ReadAndQueue(l, false).l, sent);
  }

  lemma BeginConserves(l: Lib)
    requires Conserved(l)
    ensures Conserved(BeginExecute(l))
  {
    assert ([l.events] + l.lists)[1..] == l.lists;
  }

  lemma ExecuteConserves(l: Lib)
    requires Conserved(l) && l.lists != [] && l.lists[0] != []
    ensures Conserved(ExecuteNext(l))
  {
    var list := l.lists[0];
    assert list == [list[0]] + list[1..];
    assert ExecuteNext(l).lists[1..] == l.lists[1..];
  }

  lemma {:induction false} ArrivalsAreDistinct(seen: seq<u16>, p: Pending)
    ensures Arrivals(seen)[p] == if p.serial < |seen| && seen[p.serial] == p.opcode then 1 else 0
  {
    if seen != [] { ArrivalsAreDistinct(seen[..|seen| - 1], p); }
  }

  // An event that came off the connection is pending, on the list of a running call, executed or
  // dropped: in one of these, and once. Nothing else is ever executed.
  lemma ExactlyOnce(l: Lib, p: Pending)
    requires Conserved(l)
    ensures multiset(l.events)[p] + Flat(l.lists)[p] + multiset(l.executed)[p] + multiset(l.dropped)[p]
         == if p.serial < |l.seen| && l.seen[p.serial] == p.opcode then 1 else 0
  {
    ArrivalsAreDistinct(l.seen, p);
  }

  // ---------------------------------------------------------------- the order of execution

  // The opcodes of a list in the order in which execute_events runs them.
  function Opcodes(list: seq<Pending>): (r: seq<u16>)
    ensures |r| == |list| && forall i :: 0 <= i < |r| ==> r[i] == list[i].opcode
  {
    seq(|list|, i requires 0 <= i < |list| => list[i].opcode)
  }

  // The events of a batch in the order in which they arrived.
  function Batch(l: Lib): seq<u16>
    requires |l.events| <= |l.seen|
  {
    l.seen[|l.seen| - |l.events|..]
  }

  predicate Alternates(s: seq<u16>) {
    && (forall i :: 0 <= i < |s| ==> IsEvent(s[i]))
    && (forall i :: 0 < i < |s| ==> s[i] != s[i - 1])
  }

  lemma {:induction false} ParityDecides(s: seq<u16>, i: nat, j: nat)
    requires Alternates(s) && i <= j < |s|
    ensures s[i] == s[j] <==> (j - i) % 2 == 0
    decreases j - i
  {
    if i < j { ParityDecides(s, i, j - 1); }
  }

  // Reversing such a sequence changes nothing exactly if its length is odd or zero.
  lemma ReverseOfAlternating(r: seq<u16>, s: seq<u16>)
    requires Alternates(s) && |r| == |s| && forall i :: 0 <= i < |r| ==> r[i] == s[|s| - 1 - i]
    ensures r == s <==> s == [] || |s| % 2 == 1
  {
    var n := |s|;
    if n > 0 {
      ParityDecides(s, 0, n - 1);
      if n % 2 == 1 {
        forall i | 0 <= i < n ensures r[i] == s[i] {
          if i <= n - 1 - i { ParityDecides(s, i, n - 1 - i); } else { ParityDecides(s, n - 1 - i, i); }
        }
      } else {
        assert r[0] != s[0];
      }
    }
  }

  // A batch is run in the reverse of the order in which it arrived. For the alternating enables
  // and disables that the daemon sends, that is the right order exactly for an odd number of them.
  predicate RunsBackwards(batch: seq<u16>, run: seq<u16>) {
    && |run| == |batch| && (forall i :: 0 <= i < |run| ==> run[i] == batch[|batch| - 1 - i])
    && (Alternates(batch) ==> (run == batch <==> batch == [] || |batch| % 2 == 1))
  }

  lemma BatchOrder(l: Lib)
    requires NewestFirst(l)
    ensures RunsBackwards(Batch(l), Opcodes(l.events))
  {
    if Alternates(Batch(l)) { ReverseOfAlternating(Opcodes(l.events), Batch(l)); }
  }
}
