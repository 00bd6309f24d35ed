// The framing loop of client_handle_connection: what it dispatches depends on the bytes of the
// stream, not on how the reads cut them up.
module Framing {
  import opened Options
  import opened Ring
  import opened Connection
  import opened Protocol

  // A complete frame at the front of the buffer.
  predicate Complete(b: seq<byte>) {
    |b| >= HEADER && HEADER + DecodeHeader(b[..HEADER]).size <= |b|
  }

  function FrontLength(b: seq<byte>): nat
    requires |b| >= HEADER
  {
    HEADER + DecodeHeader(b[..HEADER]).size
  }

  function Front(b: seq<byte>): Frame
    requires Complete(b)
  {
    Frame(DecodeHeader(b[..HEADER]).opcode, b[HEADER..FrontLength(b)])
  }

  // A path with exactly one NUL, at its end.
  predicate Terminated(path: seq<byte>) {
    path != [] && path[|path| - 1] == 0 && forall i :: 0 <= i < |path| - 1 ==> path[i] != 0
  }

  // What client_handle_opcode expects to find behind a header.
  datatype Shape = NoPayload | OneInt | PathPayload | UnknownOpcode

  function ShapeOf(opcode: u16): Shape {
    if opcode in {CLIENT_OPEN_SEAT, CLIENT_CLOSE_SEAT, CLIENT_DISABLE_SEAT, CLIENT_PING} then NoPayload
    else if opcode in {CLIENT_CLOSE_DEVICE, CLIENT_SWITCH_SESSION} then OneInt
    else if opcode == CLIENT_OPEN_DEVICE then PathPayload
    else UnknownOpcode
  }

  // The payload checks of client_handle_opcode.
  predicate Accepts(f: Frame) {
    match ShapeOf(f.opcode)
    case NoPayload => f.payload == []
    case OneInt => |f.payload| == 4
    case PathPayload =>
      && |f.payload| >= 2 && DecodeU16(f.payload[0], f.payload[1]) == |f.payload| - 2
      && |f.payload| - 2 <= MAX_PATH_LEN && Terminated(f.payload[2..])
    case UnknownOpcode => false
  }

  // The verdict of client_handle_opcode on the n-th frame of a connection: the payload checks, then
  // whatever the request handler answers; `ok` lists those answers.
  predicate Passes(ok: seq<bool>, n: nat, f: Frame) {
    Accepts(f) && n < |ok| && ok[n]
  }

  // The frames handed to client_handle_opcode, the bytes left over, and whether the client is still
  // there.
  datatype Drained = Drained(frames: seq<Frame>, rest: seq<byte>, alive: bool) {
    function After(f: Frame): Drained {
      Drained([f] + frames, rest, alive)
    }
  }

  function Drain(b: seq<byte>, n: nat, ok: seq<bool>): (r: Drained)
    ensures r.alive ==> !Complete(r.rest) && |r.rest| <= |b|
    decreases |b|
  {
    if !Complete(b) then Drained([], b, true)
    else if !Passes(ok, n, Front(b)) then Drained([Front(b)], b, false)
    else
      Drain(b[FrontLength(b)..], n + 1, ok).After(Front(b))
  }

  // ---------------------------------------------------------------- chunk independence

  lemma CompleteStays(a: seq<byte>, c: seq<byte>)
    requires Complete(a)
    ensures Complete(a + c) && Front(a + c) == Front(a) && FrontLength(a + c) == FrontLength(a)
    ensures (a + c)[FrontLength(a)..] == a[FrontLength(a)..] + c
  {
    assert (a + c)[..HEADER] == a[..HEADER];
    assert (a + c)[HEADER..FrontLength(a)] == a[HEADER..FrontLength(a)];
  }

  // The outcome of the whole buffer, from that of a prefix and of what comes after.
  predicate Continues(d: Drained, more: Drained, whole: Drained) {
    && whole.frames == d.frames + more.frames && whole.alive == more.alive
    && (whole.alive ==> whole.rest == more.rest)
  }

  lemma AfterContinues(d: Drained, more: Drained, whole: Drained, f: Frame)
    requires Continues(d, more, whole)
    ensures Continues(d.After(f), more, whole.After(f))
  {
  }

  // Draining a prefix first, then the remainder with what is left over, comes to the same.
  ghost predicate Split(a: seq<byte>, c: seq<byte>, n: nat, ok: seq<bool>) {
    var d := Drain(a, n, ok);
    var whole := Drain(a + c, n, ok);
    if d.alive then Continues(d, Drain(d.rest + c, n + |d.frames|, ok), whole)
    else whole.frames == d.frames && !whole.alive
  }

  lemma SplitFront(a: seq<byte>, c: seq<byte>, n: nat, ok: seq<bool>)
    requires Complete(a) && Passes(ok, n, Front(a)) && Split(a[FrontLength(a)..], c, n + 1, ok)
    ensures Split(a, c, n, ok)
  {
    hide Front;
    var rest := a[FrontLength(a)..];
    var d, whole := Drain(rest, n + 1, ok), Drain(rest + c, n + 1, ok);
    CompleteStays(a, c);
    assert Drain(a, n, ok) == d.After(Front(a));
    assert Drain(a + c, n, ok) == whole.After(Front(a));
    if d.alive {
      assert n + |d.After(Front(a)).frames| == n + 1 + |d.frames|;
      AfterContinues(d, Drain(d.rest + c, n + 1 + |d.frames|, ok), whole, Front(a));
    }
  }

  lemma {:induction false} DrainSplits(a: seq<byte>, c: seq<byte>, n: nat, ok: seq<bool>)
    ensures Split(a, c, n, ok)
    decreases |a|
  {
    if Complete(a) {
      if Passes(ok, n, Front(a)) {
        DrainSplits(a[FrontLength(a)..], c, n + 1, ok);
        SplitFront(a, c, n, ok);
      } else {
        CompleteStays(a, c);
      }
    }
  }

  // The state of a connection across reads.
  datatype Session = Session(frames: seq<Frame>, rest: seq<byte>, alive: bool)

  // One readable event: the chunk is appended to the ring, then the loop runs.
  function OnChunk(s: Session, chunk: seq<byte>, ok: seq<bool>): Session {
    if !s.alive then s
    else
      var d := Drain(s.rest + chunk, |s.frames|, ok);
      Session(s.frames + d.frames, d.rest, d.alive)
  }

  function OnChunks(chunks: seq<seq<byte>>, ok: seq<bool>): Session {
    if chunks == [] then Session([], [], true)
    else OnChunk(OnChunks(chunks[..|chunks| - 1], ok), chunks[|chunks| - 1], ok)
  }

  function Concat(chunks: seq<seq<byte>>): seq<byte> {
    if chunks == [] then [] else Concat(chunks[..|chunks| - 1]) + chunks[|chunks| - 1]
  }

  // What is dispatched, whether the client survives and what is left over depend only on the
  // concatenation of the chunks.
  lemma {:induction false} ChunksDoNotMatter(chunks: seq<seq<byte>>, ok: seq<bool>)
    ensures var s := OnChunks(chunks, ok);
            var d := Drain(Concat(chunks), 0, ok);
            s.frames == d.frames && s.alive == d.alive && (s.alive ==> s.rest == d.rest)
  {
    if chunks != [] {
      var n := |chunks| - 1;
      ChunksDoNotMatter(chunks[..n], ok);
      DrainSplits(Concat(chunks[..n]), chunks[n], 0, ok);
    }
  }

  // ---------------------------------------------------------------- completeness and the ring

  function EncodeAll(fs: seq<Frame>): seq<byte>
    requires forall i :: 0 <= i < |fs| ==> |fs[i].payload| < 0x1_0000
  {
    if fs == [] then [] else Encode(fs[0]) + EncodeAll(fs[1..])
  }

  lemma FrontOfEncode(f: Frame, c: seq<byte>)
    requires |f.payload| < 0x1_0000
    ensures Complete(Encode(f) + c) && Front(Encode(f) + c) == f
    ensures FrontLength(Encode(f) + c) == |Encode(f)| && (Encode(f) + c)[|Encode(f)|..] == c
  {
    var b := Encode(f) + c;
    HeaderRoundTrip(Header(f.opcode, |f.payload|));
    assert b[..HEADER] == EncodeHeader(Header(f.opcode, |f.payload|));
    assert b[HEADER..HEADER + |f.payload|] == f.payload;
  }

  // No frame begins these bytes and ends in them.
  ghost predicate NoFrame(b: seq<byte>) {
    forall f: Frame, c: seq<byte> :: |f.payload| < 0x1_0000 ==> b != Encode(f) + c
  }

  lemma FrontIsEncoded(b: seq<byte>)
    requires Complete(b)
    ensures |Front(b).payload| < 0x1_0000 && b == Encode(Front(b)) + b[FrontLength(b)..]
  {
    assert EncodeHeader(DecodeHeader(b[..HEADER])) == b[..HEADER];
    assert b == b[..HEADER] + b[HEADER..FrontLength(b)] + b[FrontLength(b)..];
  }

  lemma IncompleteIs(b: seq<byte>)
    ensures !Complete(b) <==> NoFrame(b)
  {
    if Complete(b) {
      FrontIsEncoded(b);
    } else {
      forall f: Frame, c: seq<byte> | |f.payload| < 0x1_0000 ensures b != Encode(f) + c { FrontOfEncode(f, c); }
    }
  }

  predicate AllShort(fs: seq<Frame>) {
    forall i :: 0 <= i < |fs| ==> |fs[i].payload| < 0x1_0000
  }

  // What the loop makes of any bytes at all: it takes one frame after the other off the front, up to
  // the first that is refused or until no frame is complete; the client goes with a refused frame, and
  // only then.
  ghost predicate TakesApart(b: seq<byte>, n: nat, ok: seq<bool>, d: Drained, tail: seq<byte>) {
    && AllShort(d.frames) && b == EncodeAll(d.frames) + tail
    && (forall i :: 0 <= i < |d.frames| - 1 ==> Passes(ok, n + i, d.frames[i]))
    && (d.alive <==> forall i :: 0 <= i < |d.frames| ==> Passes(ok, n + i, d.frames[i]))
    && (d.alive ==> d.rest == tail && NoFrame(tail))
  }

  lemma {:induction false} DrainTakesApart(b: seq<byte>, n: nat, ok: seq<bool>) returns (tail: seq<byte>)
    ensures TakesApart(b, n, ok, Drain(b, n, ok), tail)
    decreases |b|
  {
    hide Front, NoFrame, Encode, Passes;
    if !Complete(b) {
      tail := b;
      IncompleteIs(b);
      assert EncodeAll([]) + b == b;
    } else {
      FrontIsEncoded(b);
      var f, rest := Front(b), b[FrontLength(b)..];
      if !Passes(ok, n, f) {
        tail := rest;
        assert [f][1..] == [] && EncodeAll([f]) == Encode(f) + EncodeAll([]);
        assert Encode(f) + [] == Encode(f);
      } else {
        tail := DrainTakesApart(rest, n + 1, ok);
        OneFrameMore(f, rest, n, ok, Drain(rest, n + 1, ok), tail);
      }
    }
  }

  lemma OneFrameMore(f: Frame, b: seq<byte>, n: nat, ok: seq<bool>, d: Drained, tail: seq<byte>)
    requires |f.payload| < 0x1_0000 && Passes(ok, n, f) && TakesApart(b, n + 1, ok, d, tail)
    ensures TakesApart(Encode(f) + b, n, ok, d.After(f), tail)
  {
    hide NoFrame, Encode, Passes;
    var e := d.After(f);
    assert e.frames[1..] == d.frames;
    Associative(Encode(f), EncodeAll(d.frames), tail);
    assert forall i :: 0 < i < |e.frames| ==> e.frames[i] == d.frames[i - 1];
    forall i | 0 <= i < |e.frames| - 1 ensures Passes(ok, n + i, e.frames[i]) {
      if i > 0 { assert Passes(ok, n + 1 + (i - 1), d.frames[i - 1]); }
    }
    if d.alive {
      forall i | 0 <= i < |e.frames| ensures Passes(ok, n + i, e.frames[i]) {
        if i > 0 { assert Passes(ok, n + 1 + (i - 1), d.frames[i - 1]); }
      }
    } else {
      var i :| 0 <= i < |d.frames| && !Passes(ok, n + 1 + i, d.frames[i]);
      assert !Passes(ok, n + (i + 1), e.frames[i + 1]);
    }
  }

  // A stream of well-formed frames is dispatched frame by frame, with nothing left over.
  lemma {:induction false} EveryFrameIsDispatched(fs: seq<Frame>, n: nat, ok: seq<bool>)
    requires forall i :: 0 <= i < |fs| ==> |fs[i].payload| < 0x1_0000
    requires n + |fs| <= |ok| && (forall k :: n <= k < n + |fs| ==> ok[k])
    requires forall i :: 0 <= i < |fs| ==> Accepts(fs[i])
    ensures Drain(EncodeAll(fs), n, ok) == Drained(fs, [], true)
  {
    if fs != [] {
      var b, tail := EncodeAll(fs), EncodeAll(fs[1..]);
      FrontOfEncode(fs[0], tail);
      assert b == Encode(fs[0]) + tail;
      EveryFrameIsDispatched(fs[1..], n + 1, ok);
      assert Drain(b, n, ok) == Drain(tail, n + 1, ok).After(fs[0]);
    }
  }

  const MAX_PAYLOAD: int := CAP - HEADER

  // The frame at the front can still be completed in a ring of 256 bytes.
  predicate Fits(b: seq<byte>) {
    |b| >= HEADER ==> DecodeHeader(b[..HEADER]).size <= MAX_PAYLOAD
  }

  // When the loop stops, the ring has room for another read exactly unless the frame at its front
  // is too large for the ring: then the ring fills up without ever completing it.
  lemma RingHasRoom(b: seq<byte>, n: nat, ok: seq<bool>)
    requires Drain(b, n, ok).alive
    ensures var rest := Drain(b, n, ok).rest;
            && (Fits(rest) ==> |rest| < CAP)
            && (!Fits(rest) ==> forall c: seq<byte> :: |rest + c| <= CAP ==> !Complete(rest + c))
  {
    var rest := Drain(b, n, ok).rest;
    if !Fits(rest) {
      forall c: seq<byte> | |rest + c| <= CAP ensures !Complete(rest + c) {
        assert (rest + c)[..HEADER] == rest[..HEADER];
      }
    }
  }

  // Whatever comes out of a ring is small enough.
  lemma {:induction false} DispatchedAreSmall(b: seq<byte>, n: nat, ok: seq<bool>, i: nat)
    requires |b| <= CAP && i < |Drain(b, n, ok).frames|
    ensures |Drain(b, n, ok).frames[i].payload| <= MAX_PAYLOAD
    decreases |b|
  {
    if i > 0 { DispatchedAreSmall(b[FrontLength(b)..], n + 1, ok, i - 1); }
  }

  // The client library sends open_device requests for paths of up to 256 bytes with the NUL; the
  // daemon can take the request in exactly when there are at most 250.
  lemma LongestPath(path: seq<byte>)
    requires Terminated(path) && |path| <= MAX_PATH_LEN
    ensures var p := [(|path| % 256) as byte, (|path| / 256) as byte] + path;
            Accepts(Frame(CLIENT_OPEN_DEVICE, p)) && (HEADER + |p| <= CAP <==> |path| <= 250)
  {
    var p := [(|path| % 256) as byte, (|path| / 256) as byte] + path;
    assert p[2..] == path;
  }

  // ---------------------------------------------------------------- the loop on a connection

  // client_handle_opcode, up to the request handler: a request that passes has had exactly its
  // payload taken off the ring.
  method TakePayload(conn: Incoming, opcode: u16, size: u16) returns (r: Option<seq<byte>>)
    requires conn.Valid() && size <= |conn.input.held|
    modifies conn.input
    ensures conn.Valid()
    ensures r.Some? <==> Accepts(Frame(opcode, old(conn.input.held)[..size]))
    ensures r.Some? ==> r.value == old(conn.input.held)[..size] && conn.input.held == old(conn.input.held)[size..]
  {
    match ShapeOf(opcode)
    case NoPayload =>
      if size != 0 { return None; }
      return Some([]);
    case OneInt =>
      if size != 4 { return None; }
      r := conn.Get(4);
    case PathPayload =>
      if size < 2 { return None; }
      r := TakePath(conn, size);
    case UnknownOpcode => return None;
  }

  // The payload of an open_device request: a length, then that many bytes.
  method TakePath(conn: Incoming, size: u16) returns (r: Option<seq<byte>>)
    requires conn.Valid() && 2 <= size <= |conn.input.held|
    modifies conn.input
    ensures conn.Valid()
    ensures var p := old(conn.input.held)[..size];
            r.Some? <==> DecodeU16(p[0], p[1]) == size - 2 && size - 2 <= MAX_PATH_LEN && Terminated(p[2..])
    ensures r.Some? ==> r.value == old(conn.input.held)[..size] && conn.input.held == old(conn.input.held)[size..]
  {
    ghost var p := conn.input.held[..size];
    var len := conn.Get(2);
    assert len.value == p[..2];
    var pathLen := DecodeU16(len.value[0], len.value[1]);
    if pathLen != size - 2 || pathLen > MAX_PATH_LEN { return None; }
    var path := conn.Get(pathLen);
    assert path.value == p[2..];
    var terminated := CheckTerminated(path.value);
    if !terminated { return None; }
    assert len.value + path.value == p;
    return Some(len.value + path.value);
  }

  // strnlen of the path against its length
  method CheckTerminated(path: seq<byte>) returns (yes: bool)
    ensures yes == Terminated(path)
  {
    if path == [] { return false; }
    var i := 0;
    while i < |path| && path[i] != 0
      invariant 0 <= i <= |path| && forall j :: 0 <= j < i ==> path[j] != 0
    {
      i := i + 1;
    }
    return i == |path| - 1;
  }

  // What is at the front of the ring.
  datatype Taken = Incomplete | Malformed | Whole(frame: Frame)

  function AtFront(b: seq<byte>): Taken {
    if !Complete(b) then Incomplete else if !Accepts(Front(b)) then Malformed else Whole(Front(b))
  }

  // One turn of the loop: a header is read, and put back if its payload is not there yet.
  method TakeFrame(conn: Incoming) returns (r: Taken)
    requires conn.Valid()
    modifies conn.input
    ensures conn.Valid() && r == AtFront(old(conn.input.held))
    ensures r.Incomplete? ==> conn.input.held == old(conn.input.held)
    ensures r.Whole? ==> conn.input.held == old(conn.input.held)[FrontLength(old(conn.input.held))..]
  {
    ghost var b := conn.input.held;
    var h := conn.Get(HEADER);
    if h.None? { return Incomplete; }
    var header := DecodeHeader(h.value);
    var pending := conn.Pending();
    if pending < header.size {
      conn.Restore(HEADER);
      assert conn.input.held == b;
      return Incomplete;
    }
    assert Front(b) == Frame(header.opcode, b[HEADER..][..header.size]);
    var payload := TakePayload(conn, header.opcode, header.size);
    if payload.None? { return Malformed; }
    return Whole(Frame(header.opcode, payload.value));
  }

  // The loop has taken these frames off the buffer `from`, and `b` is left.
  ghost predicate Reaches(from: seq<byte>, n: nat, frames: seq<Frame>, ok: seq<bool>, b: seq<byte>)
    decreases |frames|
  {
    if frames == [] then from == b
    else
      && Complete(from) && Front(from) == frames[0] && Passes(ok, n, frames[0])
      && Reaches(from[FrontLength(from)..], n + 1, frames[1..], ok, b)
  }

  lemma {:induction false} ReachesOn(from: seq<byte>, n: nat, frames: seq<Frame>, ok: seq<bool>, b: seq<byte>)
    requires Reaches(from, n, frames, ok, b) && Complete(b) && Passes(ok, n + |frames|, Front(b))
    ensures Reaches(from, n, frames + [Front(b)], ok, b[FrontLength(b)..])
    decreases |frames|
  {
    if frames == [] {
      assert (frames + [Front(b)])[1..] == [];
    } else {
      ReachesOn(from[FrontLength(from)..], n + 1, frames[1..], ok, b);
      assert (frames + [Front(b)])[1..] == frames[1..] + [Front(b)];
    }
  }

  // Where the loop ends, Drain ends.
  lemma {:induction false} ReachesEnd(from: seq<byte>, n: nat, frames: seq<Frame>, ok: seq<bool>, b: seq<byte>)
    returns (d: Drained)
    requires Reaches(from, n, frames, ok, b) && (Complete(b) ==> !Passes(ok, n + |frames|, Front(b)))
    ensures d == Drain(from, n, ok)
    ensures d == if Complete(b) then Drained(frames + [Front(b)], b, false) else Drained(frames, b, true)
    decreases |frames|
  {
    if frames == [] {
      d := Drain(from, n, ok);
    } else {
      var e := ReachesEnd(from[FrontLength(from)..], n + 1, frames[1..], ok, b);
      d := e.After(frames[0]);
      assert [frames[0]] + frames[1..] == frames;
    }
  }

  // How far the loop has come.
  datatype Progress = Progress(from: seq<byte>, n: nat, ok: seq<bool>, frames: seq<Frame>, b: seq<byte>)

  ghost predicate Sound(p: Progress) {
    Reaches(p.from, p.n, p.frames, p.ok, p.b)
  }

  // The loop ends here: for want of a complete frame, or because the frame did not pass.
  ghost predicate Ends(p: Progress, alive: bool) {
    if alive then !Complete(p.b) else Complete(p.b) && !Passes(p.ok, p.n + |p.frames|, Front(p.b))
  }

  lemma Proceed(p: Progress) returns (q: Progress)
    requires Sound(p) && Complete(p.b) && Passes(p.ok, p.n + |p.frames|, Front(p.b))
    ensures q == p.(frames := p.frames + [Front(p.b)], b := p.b[FrontLength(p.b)..]) && Sound(q) && |q.b| < |p.b|
  {
    q := p.(frames := p.frames + [Front(p.b)], b := p.b[FrontLength(p.b)..]);
    ReachesOn(p.from, p.n, p.frames, p.ok, p.b);
  }

  // The body of the loop: a frame is taken and judged, unless none is complete.
  method TakeOne(conn: Incoming, n: nat, ok: seq<bool>, ghost p: Progress)
    returns (more: bool, alive: bool, ghost q: Progress)
    requires conn.Valid() && conn.input.held == p.b && n == p.n + |p.frames| && ok == p.ok && Sound(p)
    modifies conn.input
    ensures conn.Valid() && Sound(q) && q.from == p.from && q.n == p.n && q.ok == p.ok
    ensures (more ==> alive) && (alive ==> conn.input.held == q.b)
    ensures if more then |q.b| < |p.b| && |q.frames| == |p.frames| + 1 else q == p && Ends(p, alive)
  {
    var r := TakeFrame(conn);
    q := p;
    if r.Incomplete? { return false, true, p; }
    if r.Malformed? || n >= |ok| || !ok[n] { return false, false, p; }
    q := Proceed(p);
    return true, true, q;
  }

  // The loop over the frames on the ring.
  method TakeFrames(conn: Incoming, n: nat, ok: seq<bool>) returns (alive: bool, ghost p: Progress)
    requires conn.Valid()
    modifies conn.input
    ensures conn.Valid() && Sound(p) && p.from == old(conn.input.held) && p.n == n && p.ok == ok
    ensures Ends(p, alive) && (alive ==> conn.input.held == p.b)
  {
    p := Progress(conn.input.held, n, ok, [], conn.input.held);
    var count, more := 0, true;
    alive := true;
    while more
      invariant conn.Valid() && count == |p.frames| && (more ==> alive) && (alive ==> conn.input.held == p.b)
      invariant Sound(p) && p.from == old(conn.input.held) && p.n == n && p.ok == ok
      invariant more || Ends(p, alive)
      decreases |p.b|, more
    {
      more, alive, p := TakeOne(conn, n + count, ok, p);
      if more { count := count + 1; }
    }
  }

  // One readable event does what Drain says, and leaves on the ring what Drain leaves over.
  method HandleReadable(conn: Incoming, n: nat, ok: seq<bool>) returns (alive: bool, ghost d: Drained)
    requires conn.Valid()
    modifies conn.input
    ensures conn.Valid() && d == Drain(old(conn.input.held), n, ok)
    ensures alive == d.alive && (alive ==> conn.input.held == d.rest)
  {
    hide Drain, Complete, Passes;
    ghost var p;
    alive, p := TakeFrames(conn, n, ok);
    d := ReachesEnd(p.from, n, p.frames, ok, p.b);
  }
}
