// Messages as they travel: a four-byte header with opcode and payload size, then the payload.
module Protocol {
  import opened Ring
  import opened Connection

  const HEADER: int := 4
  const MAX_PATH_LEN: int := 256

  const CLIENT_OPEN_SEAT: int := 1
  const CLIENT_CLOSE_SEAT: int := 2
  const CLIENT_OPEN_DEVICE: int := 3
  const CLIENT_CLOSE_DEVICE: int := 4
  const CLIENT_DISABLE_SEAT: int := 5
  const CLIENT_SWITCH_SESSION: int := 6
  const CLIENT_PING: int := 7

  const SERVER_SEAT_OPENED: int := 0x8001
  const SERVER_SEAT_CLOSED: int := 0x8002
  const SERVER_DEVICE_OPENED: int := 0x8003
  const SERVER_DEVICE_CLOSED: int := 0x8004
  const SERVER_DISABLE_SEAT: int := 0x8005
  const SERVER_ENABLE_SEAT: int := 0x8006
  const SERVER_PONG: int := 0x8007
  const SERVER_SESSION_SWITCHED: int := 0x8008
  const SERVER_SEAT_DISABLED: int := 0x8009
  const SERVER_ERROR: int := 0xFFFF

  type u16 = x: int | 0 <= x < 0x1_0000

  datatype Header = Header(opcode: u16, size: u16)

  function DecodeU16(a: byte, b: byte): u16 {
    a as int + 256 * b as int
  }

  function DecodeHeader(b: seq<byte>): Header
    requires |b| == HEADER
  {
    Header(DecodeU16(b[0], b[1]), DecodeU16(b[2], b[3]))
  }

  function EncodeHeader(h: Header): (b: seq<byte>)
    ensures |b| == HEADER
  {
    [(h.opcode % 256) as byte, (h.opcode / 256) as byte, (h.size % 256) as byte, (h.size / 256) as byte]
  }

  lemma HeaderRoundTrip(h: Header)
    ensures DecodeHeader(EncodeHeader(h)) == h
  {
  }

  // Two numbers of two bytes each, the least significant byte first.
  lemma HeaderLayout(h: Header)
    ensures var b := EncodeHeader(h);
            h.opcode == b[0] as int + 256 * b[1] as int && h.size == b[2] as int + 256 * b[3] as int
  {
  }

  // The 32 bits of an int.
  const WORD: int := 0x1_0000_0000

  predicate IsInt(x: int) {
    -0x8000_0000 <= x < 0x8000_0000
  }

  function EncodeInt(x: int): (b: seq<byte>)
    requires IsInt(x)
    ensures |b| == 4
  {
    EncodeFd(if x < 0 then x + WORD else x)
  }

  function DecodeInt(b: seq<byte>): (x: int)
    requires |b| == 4
    ensures IsInt(x)
  {
    var u := DecodeFd(b);
    if u >= 0x8000_0000 then u - WORD else u
  }

  // Two's complement, the least significant byte first.
  lemma IntLayout(x: int)
    requires IsInt(x)
    ensures var b := EncodeInt(x);
            (if x < 0 then x + 0x1_0000_0000 else x) ==
              b[0] as int + 0x100 * b[1] as int + 0x1_0000 * b[2] as int + 0x100_0000 * b[3] as int
  {
    FdRoundTrip(if x < 0 then x + WORD else x);
  }

  lemma IntRoundTrip(x: int)
    requires IsInt(x)
    ensures DecodeInt(EncodeInt(x)) == x
  {
    hide EncodeFd, DecodeFd;
    FdRoundTrip(if x < 0 then x + WORD else x);
  }

  datatype Frame = Frame(opcode: u16, payload: seq<byte>)

  function Encode(f: Frame): (b: seq<byte>)
    requires |f.payload| < 0x1_0000
    ensures |b| == HEADER + |f.payload|
  {
    EncodeHeader(Header(f.opcode, |f.payload|)) + f.payload
  }
}
