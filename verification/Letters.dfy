// What the daemon sends to one client, as letters and as bytes, and how read_and_queue takes
// them off the ring.
module Letters {
  import opened Options
  import opened Ring
  import opened Protocol
  import opened Framing
  import opened SeatSpec
  import opened SeatReplies
  import opened Libseat

  // A request made by a synchronous call; `serial` is a history variable.
  datatype Ask = Ask(req: Request, serial: nat)

  // A reply remembers which request it was produced for.
  datatype Result = Result(reply: Reply, payload: seq<byte>, ask: Ask)

  datatype Letter = Told(enable: bool) | PongLetter | Re(result: Result)

  // The payload the daemon puts behind the header of a reply.
  predicate Shaped(reply: Reply, payload: seq<byte>) {
    match reply
    case SeatOpened =>
      && 2 < |payload| <= 2 + MAX_SEAT_LEN && DecodeU16(payload[0], payload[1]) == |payload| - 2
      && Terminated(payload[2..])
    case DeviceOpened(id) => IsInt(id) && payload == EncodeInt(id)
    case Error => |payload| == 4
    case _ => payload == []
  }

  predicate Sealed(l: Letter) {
    l.Re? ==> l.result.reply != Pong && Shaped(l.result.reply, l.result.payload)
  }

  ghost predicate AllSealed(mail: seq<Letter>) {
    forall i :: 0 <= i < |mail| ==> Sealed(mail[i])
  }

  function OpcodeOf(reply: Reply): u16 {
    match reply
    case SeatOpened => SERVER_SEAT_OPENED
    case SeatClosed => SERVER_SEAT_CLOSED
    case DeviceOpened(_) => SERVER_DEVICE_OPENED
    case DeviceClosed => SERVER_DEVICE_CLOSED
    case SeatDisabled => SERVER_SEAT_DISABLED
    case SessionSwitched => SERVER_SESSION_SWITCHED
    case Pong => SERVER_PONG
    case Error => SERVER_ERROR
  }

  function EventOf(enable: bool): u16 {
    if enable then SERVER_ENABLE_SEAT else SERVER_DISABLE_SEAT
  }

  function FrameOf(l: Letter): Frame {
    match l
    case Told(enable) => Frame(EventOf(enable), [])
    case PongLetter => Frame(SERVER_PONG, [])
    case Re(result) => Frame(OpcodeOf(result.reply), result.payload)
  }

  function Wrap(l: Letter): (b: seq<byte>)
    requires Sealed(l)
    ensures |b| == HEADER + |FrameOf(l).payload|
  {
    Encode(FrameOf(l))
  }

  function Bytes(mail: seq<Letter>): seq<byte>
    requires AllSealed(mail)
  {
    if mail == [] then [] else Wrap(mail[0]) + Bytes(mail[1..])
  }

  lemma {:induction false} BytesConcat(a: seq<Letter>, b: seq<Letter>)
    requires AllSealed(a) && AllSealed(b)
    ensures AllSealed(a + b) && Bytes(a + b) == Bytes(a) + Bytes(b)
  {
    if a == [] {
      assert a + b == b;
    } else {
      BytesConcat(a[1..], b);
      Associative(Wrap(a[0]), Bytes(a[1..]), Bytes(b));
      assert (a + b)[1..] == a[1..] + b;
    }
  }

  // ---------------------------------------------------------------- the parts of the mail

  function EventIn(x: Letter): seq<u16> {
    if x.Told? then [EventOf(x.enable)] else []
  }

  function PongIn(x: Letter): nat {
    if x.PongLetter? then 1 else 0
  }

  function ResultIn(x: Letter): seq<Result> {
    if x.Re? then [x.result] else []
  }

  function Events(mail: seq<Letter>): seq<u16> {
    if mail == [] then [] else EventIn(mail[0]) + Events(mail[1..])
  }

  function Pongs(mail: seq<Letter>): nat {
    if mail == [] then 0 else PongIn(mail[0]) + Pongs(mail[1..])
  }

  // The replies, without pongs.
  function Results(mail: seq<Letter>): seq<Result> {
    if mail == [] then [] else ResultIn(mail[0]) + Results(mail[1..])
  }

  lemma {:induction false} EventsConcat(a: seq<Letter>, b: seq<Letter>)
    ensures Events(a + b) == Events(a) + Events(b)
  {
    if a == [] {
      assert a + b == b;
    } else {
      EventsConcat(a[1..], b);
      Associative(EventIn(a[0]), Events(a[1..]), Events(b));
      assert (a + b)[1..] == a[1..] + b;
    }
  }

  lemma {:induction false} PongsConcat(a: seq<Letter>, b: seq<Letter>)
    ensures Pongs(a + b) == Pongs(a) + Pongs(b)
  {
    if a == [] {
      assert a + b == b;
    } else {
      PongsConcat(a[1..], b);
      assert (a + b)[1..] == a[1..] + b;
    }
  }

  lemma {:induction false} ResultsConcat(a: seq<Letter>, b: seq<Letter>)
    ensures Results(a + b) == Results(a) + Results(b)
  {
    if a == [] {
      assert a + b == b;
    } else {
      ResultsConcat(a[1..], b);
      Associative(ResultIn(a[0]), Results(a[1..]), Results(b));
      assert (a + b)[1..] == a[1..] + b;
    }
  }

  lemma PartsConcat(a: seq<Letter>, b: seq<Letter>)
    ensures Events(a + b) == Events(a) + Events(b) && Pongs(a + b) == Pongs(a) + Pongs(b)
    ensures Results(a + b) == Results(a) + Results(b)
  {
    EventsConcat(a, b);
    PongsConcat(a, b);
    ResultsConcat(a, b);
  }

  lemma OneLetter(x: Letter)
    ensures Events([x]) == EventIn(x) && Results([x]) == ResultIn(x) && Pongs([x]) == PongIn(x)
  {
    assert [x][1..] == [];
  }

  // ---------------------------------------------------------------- descriptors

  // The requests whose reply comes with a descriptor, in the order of the replies.
  function OpeningIn(r: Result): seq<Ask> {
    if r.reply.DeviceOpened? then [r.ask] else []
  }

  function Openings(results: seq<Result>): seq<Ask> {
    if results == [] then [] else OpeningIn(results[0]) + Openings(results[1..])
  }

  lemma {:induction false} OpeningsConcat(a: seq<Result>, b: seq<Result>)
    ensures Openings(a + b) == Openings(a) + Openings(b)
  {
    if a == [] {
      assert a + b == b;
    } else {
      OpeningsConcat(a[1..], b);
      Associative(OpeningIn(a[0]), Openings(a[1..]), Openings(b));
      assert (a + b)[1..] == a[1..] + b;
    }
  }

  function Length(x: Letter): nat {
    HEADER + |FrameOf(x).payload|
  }

  function DeviceIn(x: Letter): nat {
    if x.Re? && x.result.reply.DeviceOpened? then 1 else 0
  }

  // How many replies with a descriptor have a byte among the first `n`.
  function Begun(mail: seq<Letter>, n: nat): nat {
    if mail == [] || n == 0 then 0
    else DeviceIn(mail[0]) + if n <= Length(mail[0]) then 0 else Begun(mail[1..], n - Length(mail[0]))
  }

  // Letters that come after these bytes do not matter.
  lemma {:induction false} BegunBefore(mail: seq<Letter>, more: seq<Letter>, n: nat)
    requires AllSealed(mail) && n <= |Bytes(mail)|
    ensures Begun(mail + more, n) == Begun(mail, n)
  {
    if mail != [] && n > 0 {
      assert (mail + more)[1..] == mail[1..] + more;
      if n > Length(mail[0]) { BegunBefore(mail[1..], more, n - Length(mail[0])); }
    }
  }

  // Neither do letters without a reply that come before.
  lemma {:induction false} BegunAfter(taken: seq<Letter>, left: seq<Letter>, n: nat)
    requires AllSealed(taken) && Results(taken) == [] && n >= |Bytes(taken)|
    ensures Begun(taken + left, n) == Begun(left, n - |Bytes(taken)|)
  {
    if taken == [] {
      assert taken + left == left;
    } else {
      FirstIsNoReply(taken);
      hide Results, Bytes;
      assert (taken + left)[1..] == taken[1..] + left;
      BegunAfter(taken[1..], left, n - Length(taken[0]));
    }
  }

  lemma FirstIsNoReply(mail: seq<Letter>)
    requires AllSealed(mail) && mail != [] && Results(mail) == []
    ensures !mail[0].Re? && Results(mail[1..]) == [] && |Bytes(mail)| == Length(mail[0]) + |Bytes(mail[1..])|
  {
  }

  // ---------------------------------------------------------------- taking letters off the ring

  // The header on the ring is that of the first letter still to be read.
  lemma HeaderOfFirst(ring: seq<byte>, wire: seq<byte>, mail: seq<Letter>)
    requires AllSealed(mail) && ring + wire == Bytes(mail) && |ring| >= HEADER
    ensures mail != [] && DecodeHeader(ring[..HEADER]) == Header(FrameOf(mail[0]).opcode, |FrameOf(mail[0]).payload|)
  {
    var f := FrameOf(mail[0]);
    var h := Header(f.opcode, |f.payload|);
    HeaderRoundTrip(h);
    assert ring[..HEADER] == (ring + wire)[..HEADER] == Bytes(mail)[..HEADER] == Wrap(mail[0])[..HEADER] ==
           EncodeHeader(h);
  }

  // Once all of its bytes are there, reading them leaves the bytes of the others.
  lemma BytesOfFirst(ring: seq<byte>, wire: seq<byte>, mail: seq<Letter>)
    requires AllSealed(mail) && mail != [] && ring + wire == Bytes(mail) && |ring| >= |Wrap(mail[0])|
    ensures ring[..|Wrap(mail[0])|] == Wrap(mail[0]) && ring[|Wrap(mail[0])|..] + wire == Bytes(mail[1..])
  {
    var n := |Wrap(mail[0])|;
    assert ring[..n] == (ring + wire)[..n];
    assert ring[n..] + wire == (ring + wire)[n..];
  }

  // From `l` to `r` exactly these letters, none of them a reply, were taken in.
  predicate Took(l: Lib, r: Lib, taken: seq<Letter>) {
    && Results(taken) == []
    && r.seen == l.seen + Events(taken)
    && r.pongs == l.pongs + Pongs(taken) && r.pings == l.pings
    && r.awaiting == (l.awaiting && Pongs(taken) == 0)
    && r.error == l.error
  }

  lemma TookNothing(l: Lib)
    ensures Took(l, l, [])
  {
  }

  // The same for a single letter.
  predicate TookOne(l: Lib, r: Lib, x: Letter) {
    && !x.Re?
    && r.seen == l.seen + EventIn(x)
    && r.pongs == l.pongs + PongIn(x) && r.pings == l.pings
    && r.awaiting == (l.awaiting && !x.PongLetter?)
    && r.error == l.error
  }

  lemma AbsorbOne(l: Lib, x: Letter)
    requires |l.ring| >= HEADER && NextHeader(l).opcode == FrameOf(x).opcode && InBackground(FrameOf(x).opcode)
    requires Sealed(x)
    ensures TookOne(l, Absorb(l), x) && FrameOf(x).payload == []
  {
  }

  lemma AbsorbFirst(l: Lib, wire: seq<byte>, mail: seq<Letter>)
    requires AllSealed(mail) && l.ring + wire == Bytes(mail) && |l.ring| >= HEADER && InBackground(NextHeader(l).opcode)
    ensures mail != [] && Absorb(l).ring + wire == Bytes(mail[1..]) && TookOne(l, Absorb(l), mail[0])
  {
    HeaderOfFirst(l.ring, wire, mail);
    AbsorbOne(l, mail[0]);
    BytesOfFirst(l.ring, wire, mail);
  }

  lemma TookMore(l: Lib, x: Letter, m: Lib, taken: seq<Letter>, r: Lib)
    requires TookOne(l, m, x) && Took(m, r, taken)
    ensures Took(l, r, [x] + taken)
  {
    assert ([x] + taken)[1..] == taken;
  }

  // Where read_and_queue stops in the mail.
  predicate Stops(scan: Scan, wanted: bool, left: seq<Letter>)
    requires AllSealed(left)
  {
    match scan.found
    case Nothing => |scan.l.ring| < HEADER
    case Response(opcode) =>
      && wanted && left != [] && left[0].Re? && opcode == OpcodeOf(left[0].result.reply)
      && |scan.l.ring| >= |Wrap(left[0])|
    case Partial => wanted && left != [] && left[0].Re?
    case Unexpected => !wanted && left != [] && left[0].Re?
  }

  // The letters read_and_queue leaves unread.
  function Unread(l: Lib, mail: seq<Letter>): seq<Letter>
    decreases |mail|
  {
    if mail != [] && |l.ring| >= HEADER && InBackground(NextHeader(l).opcode)
    then Unread(Absorb(l), mail[1..]) else mail
  }

  // read_and_queue takes in letters up to the first reply, or as many as are complete; it fails
  // only where it meets a reply without wanting one.
  lemma {:induction false} ScanTakes(l: Lib, wanted: bool, wire: seq<byte>, mail: seq<Letter>)
    returns (taken: seq<Letter>)
    requires AllSealed(mail) && l.ring + wire == Bytes(mail)
    ensures var left := Unread(l, mail); mail == taken + left && AllSealed(left)
    ensures var left := Unread(l, mail);
            var scan := ReadAndQueue(l, wanted);
            && Stops(scan, wanted, left)
            && (scan.found != Unexpected ==> scan.l.ring + wire == Bytes(left) && Took(l, scan.l, taken))
    decreases |l.ring|
  {
    hide InBackground, NextHeader;
    if |l.ring| >= HEADER && InBackground(NextHeader(l).opcode) {
      AbsorbFirst(l, wire, mail);
      taken := ScanTakes(Absorb(l), wanted, wire, mail[1..]);
      if ReadAndQueue(l, wanted).found != Unexpected {
        TookMore(l, mail[0], Absorb(l), taken, ReadAndQueue(l, wanted).l);
      }
      taken := [mail[0]] + taken;
    } else {
      taken := [];
      ScanStops(l, wanted, wire, mail);
      TookNothing(l);
    }
  }

  lemma ScanStops(l: Lib, wanted: bool, wire: seq<byte>, mail: seq<Letter>)
    requires AllSealed(mail) && l.ring + wire == Bytes(mail)
    requires |l.ring| < HEADER || !InBackground(NextHeader(l).opcode)
    ensures Stops(ReadAndQueue(l, wanted), wanted, mail)
  {
    if |l.ring| >= HEADER { HeaderOfFirst(l.ring, wire, mail); }
  }

  // ---------------------------------------------------------------- reading a reply

  // This reply is complete on the ring.
  predicate OnRing(ring: seq<byte>, r: Result)
    requires Sealed(Re(r))
  {
    |ring| >= |Wrap(Re(r))| && ring[..|Wrap(Re(r))|] == Wrap(Re(r))
  }

  lemma ReplyOnRing(ring: seq<byte>, r: Result)
    requires Sealed(Re(r)) && OnRing(ring, r)
    ensures DecodeHeader(ring[..HEADER]) == Header(OpcodeOf(r.reply), |r.payload|)
    ensures ring[HEADER..][..|r.payload|] == r.payload && ring[HEADER..][|r.payload|..] == ring[|Wrap(Re(r))|..]
  {
    var h := Header(OpcodeOf(r.reply), |r.payload|);
    HeaderRoundTrip(h);
    var n := |Wrap(Re(r))|;
    assert ring[..HEADER] == ring[..n][..HEADER] == EncodeHeader(h);
    assert ring[HEADER..][..|r.payload|] == ring[..n][HEADER..] == r.payload;
  }

  lemma NameFits(l: Lib, r: Result)
    requires r.reply == SeatOpened && Shaped(SeatOpened, r.payload)
    requires |l.ring| >= |r.payload| && l.ring[..|r.payload|] == r.payload
    ensures ReadName(l, |r.payload|) == Parsed(Skip(l, |r.payload|), Fine, 0)
  {
    var n := |r.payload|;
    assert l.ring[0] == r.payload[0] && l.ring[1] == r.payload[1];
    assert l.ring[2..][..n - 2] == l.ring[..n][2..];
  }

  // The reply to a request is what the function behind the request is prepared to read: all of
  // it comes off the ring, and the call fails only if the daemon said so or if the descriptor
  // that belongs to the reply is missing.
  lemma OwnReplyFits(l: Lib, req: Request, fd: bool, r: Result)
    requires Sealed(Re(r)) && OnRing(l.ring, r) && Answers(req, r.reply)
    ensures var got := TakeReply(l, req, fd);
            var rest := Skip(l, |Wrap(Re(r))|);
            if r.reply.DeviceOpened? && !fd then got.l == SetError(rest) && got.outcome == Broken
            else
              && got.l == rest && got.outcome == (if r.reply == Error then Declined else Fine)
              && (r.reply.DeviceOpened? ==> got.value == r.reply.id)
  {
    hide EncodeInt, DecodeInt;
    ReplyOnRing(l.ring, r);
    if r.reply.DeviceOpened? { IntRoundTrip(r.reply.id); }
    if r.reply == SeatOpened { NameFits(Skip(l, HEADER), r); }
  }

  // A call takes a descriptor exactly if the reply brought one.
  lemma DeviceReplyFits(l: Lib, req: Request, fd: bool, r: Result)
    requires Sealed(Re(r)) && OnRing(l.ring, r) && !req.PingReq? && !TakeReply(l, req, fd).l.error
    ensures r.reply.DeviceOpened? <==> req == OpenDeviceReq && TakeReply(l, req, fd).outcome == Fine
  {
    ReplyOnRing(l.ring, r);
  }

  // Whichever reply it meets, a call takes all of it off the ring or puts the backend into its
  // error state.
  lemma AnyReplyFits(l: Lib, req: Request, fd: bool, r: Result)
    requires Sealed(Re(r)) && OnRing(l.ring, r) && !req.PingReq?
    ensures var got := TakeReply(l, req, fd); got.l.error || got.l == Skip(l, |Wrap(Re(r))|)
  {
    hide Wrap, ReadName, Terminated;
    ReplyOnRing(l.ring, r);
    if r.reply == SeatOpened { NameFits(Skip(l, HEADER), r); }
  }
}
