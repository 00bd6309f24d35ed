// Requests as bytes: the library's requests, put on the connection one after the other, are the
// requests that the daemon serves, however the reads cut the stream.
module Requests {
  import opened Options
  import opened Ring
  import opened Connection
  import opened Protocol
  import opened Framing
  import opened SeatSpec
  import S = Session
  import T = Talk

  lemma BytesRoundTrip(b: seq<byte>)
    requires |b| == 4
    ensures EncodeFd(DecodeFd(b)) == b
  {
    var x := DecodeFd(b);
    var high := b[2] as int + 256 * b[3] as int;
    assert x % 256 == b[0] as int && x / 256 == b[1] as int + 256 * high;
    assert x / 0x1_0000 == high;
    assert x / 0x100_0000 == b[3] as int;
  }

  // ---------------------------------------------------------------- one request

  // A request and, for open_device, the path it names, up to and with its NUL.
  datatype Call = Call(req: Request, path: seq<byte>)

  // What the functions of the library can be called with.
  predicate Sendable(c: Call) {
    match c.req
    case OpenDeviceReq => Terminated(c.path) && |c.path| <= MAX_PATH_LEN
    case CloseDeviceReq(id) => IsInt(id) && c.path == []
    case SwitchSessionReq(session) => IsInt(session) && c.path == []
    case _ => c.path == []
  }

  function EncodeLength(n: nat): seq<byte>
    requires n < 0x1_0000
  {
    [(n % 256) as byte, (n / 256) as byte]
  }

  // The frame the library sends.
  function FrameFor(c: Call): (f: Frame)
    requires Sendable(c)
    ensures |f.payload| <= 2 + MAX_PATH_LEN
  {
    match c.req
    case OpenSeatReq => Frame(CLIENT_OPEN_SEAT, [])
    case CloseSeatReq => Frame(CLIENT_CLOSE_SEAT, [])
    case OpenDeviceReq => Frame(CLIENT_OPEN_DEVICE, EncodeLength(|c.path|) + c.path)
    case CloseDeviceReq(id) => Frame(CLIENT_CLOSE_DEVICE, EncodeInt(id))
    case DisableSeatReq => Frame(CLIENT_DISABLE_SEAT, [])
    case SwitchSessionReq(session) => Frame(CLIENT_SWITCH_SESSION, EncodeInt(session))
    case PingReq => Frame(CLIENT_PING, [])
  }

  // The request that client_handle_opcode takes a frame for.
  function CallIn(f: Frame): Call
    requires Accepts(f)
  {
    if f.opcode == CLIENT_OPEN_SEAT then Call(OpenSeatReq, [])
    else if f.opcode == CLIENT_CLOSE_SEAT then Call(CloseSeatReq, [])
    else if f.opcode == CLIENT_OPEN_DEVICE then Call(OpenDeviceReq, f.payload[2..])
    else if f.opcode == CLIENT_CLOSE_DEVICE then Call(CloseDeviceReq(DecodeInt(f.payload)), [])
    else if f.opcode == CLIENT_DISABLE_SEAT then Call(DisableSeatReq, [])
    else if f.opcode == CLIENT_SWITCH_SESSION then Call(SwitchSessionReq(DecodeInt(f.payload)), [])
    else Call(PingReq, [])
  }

  // The daemon accepts what the library sends, and takes it for what it is.
  lemma RequestRoundTrip(c: Call)
    requires Sendable(c)
    ensures Accepts(FrameFor(c)) && CallIn(FrameFor(c)) == c
  {
    hide EncodeInt, DecodeInt;
    match c.req
    case OpenDeviceReq =>
      var f := FrameFor(c);
      assert f.payload[2..] == c.path;
    case CloseDeviceReq(id) => IntRoundTrip(id);
    case SwitchSessionReq(session) => IntRoundTrip(session);
    case _ =>
  }

  // Every frame the daemon accepts is one that the library can send.
  lemma FrameRoundTrip(f: Frame)
    requires Accepts(f)
    ensures Sendable(CallIn(f)) && FrameFor(CallIn(f)) == f
  {
    if f.opcode == CLIENT_OPEN_DEVICE {
      assert EncodeLength(|f.payload| - 2) == f.payload[..2];
      assert f.payload[..2] + f.payload[2..] == f.payload;
    } else if |f.payload| == 4 {
      BytesRoundTrip(f.payload);
    }
  }

  // ---------------------------------------------------------------- the stream

  predicate AllSendable(calls: seq<Call>) {
    forall i :: 0 <= i < |calls| ==> Sendable(calls[i])
  }

  function Frames(calls: seq<Call>): (fs: seq<Frame>)
    requires AllSendable(calls)
    ensures |fs| == |calls| && forall i :: 0 <= i < |fs| ==> fs[i] == FrameFor(calls[i]) && |fs[i].payload| < 0x1_0000
  {
    seq(|calls|, i requires 0 <= i < |calls| => FrameFor(calls[i]))
  }

  predicate Short(fs: seq<Frame>) {
    forall i :: 0 <= i < |fs| ==> |fs[i].payload| < 0x1_0000 && Accepts(fs[i])
  }

  // A prefix of a stream of frames with a complete frame at its front begins with the first of them.
  lemma FirstIsWhole(fs: seq<Frame>, b: seq<byte>)
    requires Short(fs) && b <= EncodeAll(fs) && Complete(b)
    ensures fs != [] && Front(b) == fs[0] && FrontLength(b) == |Encode(fs[0])|
    ensures b == Encode(fs[0]) + b[FrontLength(b)..]
    ensures b[FrontLength(b)..] <= EncodeAll(fs[1..])
  {
    hide Encode, DecodeHeader;
    var all, tail := EncodeAll(fs), EncodeAll(fs[1..]);
    FrontOfEncode(fs[0], tail);
    assert b[..HEADER] == all[..HEADER];
    var n := FrontLength(b);
    assert b[..n] == all[..n] == Encode(fs[0]);
    assert b[HEADER..n] == b[..n][HEADER..];
    assert b == b[..n] + b[n..];
  }

  // What the loop has made of a prefix of the stream: the first `j` frames were dispatched; the
  // client is gone only if the last of them was refused; otherwise less than a frame is left.
  ghost predicate Dispatched(fs: seq<Frame>, b: seq<byte>, n: nat, ok: seq<bool>, d: Drained, j: nat)
    requires Short(fs)
  {
    && j <= |fs| && d.frames == fs[..j]
    && (d.alive ==> b == EncodeAll(fs[..j]) + d.rest && (j < |fs| ==> |d.rest| < |Encode(fs[j])|))
    && (!d.alive ==> j > 0 && !Passes(ok, n + j - 1, fs[j - 1]))
    && (forall i :: 0 <= i < j && (i < j - 1 || d.alive) ==> Passes(ok, n + i, fs[i]))
  }

  lemma DispatchedMore(fs: seq<Frame>, b: seq<byte>, n: nat, ok: seq<bool>, d: Drained, j: nat)
    requires Short(fs) && fs != [] && Passes(ok, n, fs[0]) && Dispatched(fs[1..], b, n + 1, ok, d, j)
    ensures Dispatched(fs, Encode(fs[0]) + b, n, ok, d.After(fs[0]), j + 1)
  {
    hide Encode, Passes;
    assert fs[..j + 1] == [fs[0]] + fs[1..][..j];
    assert fs[..j + 1][1..] == fs[1..][..j];
    if d.alive { Associative(Encode(fs[0]), EncodeAll(fs[1..][..j]), d.rest); }
    forall i | 0 <= i < j + 1 && (i < j || d.alive) ensures Passes(ok, n + i, fs[i]) {
      if i > 0 { assert Passes(ok, n + 1 + (i - 1), fs[1..][i - 1]); }
    }
  }

  lemma NothingWhole(fs: seq<Frame>, b: seq<byte>)
    requires Short(fs) && b <= EncodeAll(fs) && !Complete(b) && fs != []
    ensures |b| < |Encode(fs[0])|
  {
    var all := EncodeAll(fs);
    FrontOfEncode(fs[0], EncodeAll(fs[1..]));
    if |b| >= HEADER { assert b[..HEADER] == all[..HEADER]; }
  }

  lemma {:induction false} DrainDispatches(fs: seq<Frame>, b: seq<byte>, n: nat, ok: seq<bool>) returns (j: nat)
    requires Short(fs) && b <= EncodeAll(fs)
    ensures Dispatched(fs, b, n, ok, Drain(b, n, ok), j)
  {
    if !Complete(b) {
      j := 0;
      if fs != [] { NothingWhole(fs, b); }
      assert EncodeAll([]) + b == b;
    } else {
      FirstIsWhole(fs, b);
      if !Passes(ok, n, Front(b)) {
        j := 1;
        assert fs[..1] == [fs[0]];
      } else {
        var i := DrainDispatches(fs[1..], b[FrontLength(b)..], n + 1, ok);
        DispatchedMore(fs, b[FrontLength(b)..], n, ok, Drain(b[FrontLength(b)..], n + 1, ok), i);
        j := i + 1;
      }
    }
  }

  // ---------------------------------------------------------------- from library to daemon

  // What the library sent, as calls.
  function Calls(sent: seq<T.Sent>, paths: seq<seq<byte>>): (calls: seq<Call>)
    requires |paths| == |sent|
    ensures |calls| == |sent| && forall i :: 0 <= i < |calls| ==> calls[i] == Call(S.RequestOf(sent[i]), paths[i])
  {
    seq(|sent|, i requires 0 <= i < |sent| => Call(S.RequestOf(sent[i]), paths[i]))
  }

  lemma FramesAreShort(calls: seq<Call>)
    requires AllSendable(calls)
    ensures Short(Frames(calls))
  {
    forall i | 0 <= i < |calls| ensures Accepts(FrameFor(calls[i])) { RequestRoundTrip(calls[i]); }
  }

  // Each read found room on the ring of the connection.
  predicate FitsRing(chunks: seq<seq<byte>>, ok: seq<bool>) {
    forall i :: 0 <= i < |chunks| ==>
      var s := OnChunks(chunks[..i], ok); s.alive ==> |s.rest| + |chunks[i]| <= CAP
  }

  lemma {:induction false} ServedAreSmall(chunks: seq<seq<byte>>, ok: seq<bool>)
    requires FitsRing(chunks, ok)
    ensures forall i :: 0 <= i < |OnChunks(chunks, ok).frames| ==>
            |OnChunks(chunks, ok).frames[i].payload| <= MAX_PAYLOAD
  {
    if chunks != [] {
      var n := |chunks| - 1;
      assert FitsRing(chunks[..n], ok) by {
        assert forall i :: 0 <= i < n ==> chunks[..n][..i] == chunks[..i];
      }
      ServedAreSmall(chunks[..n], ok);
      var s := OnChunks(chunks[..n], ok);
      if s.alive { DrainedAreSmall(s.rest + chunks[n], |s.frames|, ok); }
    }
  }

  lemma DrainedAreSmall(b: seq<byte>, n: nat, ok: seq<bool>)
    requires |b| <= CAP
    ensures forall i :: 0 <= i < |Drain(b, n, ok).frames| ==> |Drain(b, n, ok).frames[i].payload| <= MAX_PAYLOAD
  {
    forall i | 0 <= i < |Drain(b, n, ok).frames| ensures |Drain(b, n, ok).frames[i].payload| <= MAX_PAYLOAD {
      DispatchedAreSmall(b, n, ok, i);
    }
  }

  // The handler of the i-th request did not fail.
  predicate Answered(ok: seq<bool>, i: nat) {
    i < |ok| && ok[i]
  }

  // Whatever part of the requests has arrived, and in whatever pieces: the daemon has served an
  // initial segment of them, each as what it was, in order; all of those that have arrived
  // completely, unless it disconnected the client over one of them, which it does exactly for one
  // whose handler fails. One that is longer than the ring is never among them.
  lemma SentIsServed(sent: seq<T.Sent>, paths: seq<seq<byte>>, chunks: seq<seq<byte>>, ok: seq<bool>) returns (j: nat)
    requires |paths| == |sent| && AllSendable(Calls(sent, paths))
    requires Concat(chunks) <= EncodeAll(Frames(Calls(sent, paths)))
    ensures var fs, s := Frames(Calls(sent, paths)), OnChunks(chunks, ok);
            && j == |s.frames| <= |sent|
            && (forall i :: 0 <= i < j ==>
                Accepts(s.frames[i]) && CallIn(s.frames[i]) == Call(S.RequestOf(sent[i]), paths[i]))
            && (s.alive ==>
                Concat(chunks) == EncodeAll(fs[..j]) + s.rest && (j < |sent| ==> |s.rest| < |Encode(fs[j])|))
            && (!s.alive ==> j > 0 && !Answered(ok, j - 1))
            && (forall i :: 0 <= i < j && (i < j - 1 || s.alive) ==> Answered(ok, i))
            && (FitsRing(chunks, ok) ==> forall i :: 0 <= i < j ==> |fs[i].payload| <= MAX_PAYLOAD)
  {
    hide FitsRing, OnChunks, Drain, EncodeAll, Encode, CallIn, FrameFor, Accepts;
    if FitsRing(chunks, ok) { ServedAreSmall(chunks, ok); }
    var calls := Calls(sent, paths);
    FramesAreShort(calls);
    ChunksDoNotMatter(chunks, ok);
    j := DrainDispatches(Frames(calls), Concat(chunks), 0, ok);
    forall i | 0 <= i < j ensures CallIn(FrameFor(calls[i])) == calls[i] { RequestRoundTrip(calls[i]); }
    var s := OnChunks(chunks, ok);
    forall i | 0 <= i < j && (i < j - 1 || s.alive) ensures Answered(ok, i) {
      assert Passes(ok, 0 + i, Frames(calls)[i]);
    }
  }
}
