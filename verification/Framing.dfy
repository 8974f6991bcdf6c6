/**
 The frames of a carrier link after its HELLO: a five-byte header, then a body.
 Bytes 0-3 are the conversation's number, little-endian; byte 4 says what follows.
 */
module Framing {
  import opened Wrappers
  import opened Bytes

  const HEADER := 5

  /** What follows a header: one frame of the conversation, its END or its RESET. */
  datatype Kind = Frame | End | Reset

  datatype Msg = Msg(id: u32, kind: Kind, body: seq<byte>)

  function LittleEndian(n: u32): seq<byte> {
    [n % 0x100, n / 0x100 % 0x100, n / 0x1_0000 % 0x100, n / 0x100_0000]
  }

  function FromLittleEndian(b: seq<byte>): u32
    requires |b| == 4
  {
    (b[0] as int) + 0x100 * (b[1] as int) + 0x1_0000 * (b[2] as int) + 0x100_0000 * (b[3] as int)
  }

  function KindByte(kind: Kind): byte {
    match kind
    case Frame => 0
    case End => 1
    case Reset => 2
  }

  function Encode(m: Msg): seq<byte> {
    LittleEndian(m.id) + [KindByte(m.kind)] + m.body
  }

  /** An END or a RESET: a header alone. */
  function Marker(id: u32, kind: Kind): seq<byte> {
    Encode(Msg(id, kind, []))
  }

  /** The message in a frame; none when it has under five bytes or a kind past RESET. */
  function Header(bytes: seq<byte>): Option<Msg> {
    if |bytes| < HEADER || bytes[4] > 2 then None
    else
      var kind := if bytes[4] == 0 then Frame else if bytes[4] == 1 then End else Reset;
      Some(Msg(FromLittleEndian(bytes[..4]), kind, bytes[HEADER..]))
  }

  lemma LittleEndianDigits(b: seq<byte>)
    requires |b| == 4
    ensures LittleEndian(FromLittleEndian(b)) == b
  {
    var b0: int, b1: int, b2: int, b3: int := b[0], b[1], b[2], b[3];
    var n: int := FromLittleEndian(b);
    var n1 := b1 + 0x100 * b2 + 0x1_0000 * b3;
    var n2 := b2 + 0x100 * b3;
    assert n == 0x100 * n1 + b0 && n1 == 0x100 * n2 + b1;
    assert n / 0x100 == n1 && n % 0x100 == b[0];
    assert n1 / 0x100 == n2 && n1 % 0x100 == b[1];
    assert n / 0x1_0000 == n2 && n / 0x100_0000 == b[3];
  }

  lemma LittleEndianValue(n: u32)
    ensures FromLittleEndian(LittleEndian(n)) == n
  {
    var n1: int, n2: int, n3: int := n / 0x100, n / 0x1_0000, n / 0x100_0000;
    assert n1 == 0x100 * n2 + n1 % 0x100 && n2 == 0x100 * n3 + n2 % 0x100;
  }

  /** Reading undoes writing, and nothing else reads as what was written: the header
      is the only encoding of its number and kind. */
  lemma HeaderInvertsEncode(m: Msg, bytes: seq<byte>)
    ensures Header(Encode(m)) == Some(m)
    ensures Header(bytes) == Some(m) <==> bytes == Encode(m)
  {
    LittleEndianValue(m.id);
    assert Encode(m)[..4] == LittleEndian(m.id);
    assert Encode(m)[HEADER..] == m.body;
    if Header(bytes) == Some(m) {
      LittleEndianDigits(bytes[..4]);
      assert bytes == bytes[..4] + [bytes[4]] + bytes[HEADER..];
    }
  }
}
