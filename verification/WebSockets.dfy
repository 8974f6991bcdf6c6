/**
 The client's WebSocket frames (RFC 6455, section 5.2): a header, its length in its shortest
 form, a mask the client's frames must carry, and the payload under it.
 */
module WebSockets {
  import opened Wrappers
  import opened Bytes
  import Bitwise
  import C = Cbors

  function Xor(a: byte, b: byte): byte {
    Bitwise.Pow2Of8();
    Bitwise.Bits(Bitwise.Xor, a, b, 8)
  }

  type Mask = m: seq<byte> | |m| == 4 witness [0, 0, 0, 0]

  /** A payload under a mask (section 5.3). */
  function Masked(payload: seq<byte>, mask: Mask): (r: seq<byte>)
    ensures |r| == |payload|
  {
    seq(|payload|, i requires 0 <= i < |payload| => Xor(payload[i], mask[i % 4]))
  }

  datatype Frame = Frame(fin: bool, opcode: nat, mask: Option<Mask>, payload: seq<byte>)

  predicate Writable(f: Frame) {
    f.opcode < 16 && |f.payload| < C.TWO_64
  }

  /** A length in its shortest form, after the mask's bit. */
  function LengthForm(masked: bool, n: nat): seq<byte>
    requires n < C.TWO_64
  {
    var bit := if masked then 0x80 else 0;
    if n < 126 then [bit + n]
    else if n < 0x1_0000 then [bit + 126] + C.BigEndian(n, 2)
    else [bit + 127] + C.BigEndian(n, 8)
  }

  function Encode(f: Frame): seq<byte>
    requires Writable(f)
  {
    [(if f.fin then 0x80 else 0) + f.opcode] + LengthForm(f.mask.Some?, |f.payload|) +
      match f.mask case None => f.payload case Some(mask) => mask + Masked(f.payload, mask)
  }

  const TEXT := 1
  const BINARY := 2
  const CLOSE := 8

  const KEY: Mask := [0x37, 0xfa, 0x21, 0x3d]

  /** The frame a client sends a payload in. */
  function Binary(payload: seq<byte>): Frame {
    Frame(true, BINARY, Some(KEY), payload)
  }

  function Sent(payloads: seq<seq<byte>>): seq<Frame> {
    seq(|payloads|, i requires 0 <= i < |payloads| => Binary(payloads[i]))
  }

  function Wire(frames: seq<Frame>): seq<byte>
    requires forall i | 0 <= i < |frames| :: Writable(frames[i])
  {
    if frames == [] then [] else Encode(frames[0]) + Wire(frames[1..])
  }

  // Reading.

  datatype Header = Header(opcode: nat, masked: bool, len: nat, rest: seq<byte>)

  /** A frame's header: none while its bytes are not all there. */
  function ReadHeader(b: seq<byte>): Option<Header> {
    if |b| < 2 then None
    else
      var opcode, masked, form := b[0] % 16, b[1] >= 0x80, b[1] % 0x80;
      var width := if form == 126 then 2 else if form == 127 then 8 else 0;
      if |b| < 2 + width then None
      else Some(Header(opcode, masked, if width == 0 then form else C.FromBigEndian(b[2..2 + width]), b[2 + width..]))
  }

  datatype Got = Data(payload: seq<byte>, rest: seq<byte>) | Closed | TooLong | Torn

  datatype One = One(opcode: nat, payload: seq<byte>, rest: seq<byte>) | Stopped(why: Got)

  function ReadFrame(b: seq<byte>, limit: nat): One {
    match ReadHeader(b)
    case None => Stopped(Torn)
    case Some(Header(opcode, masked, len, rest)) =>
      var keyLen := if masked then 4 else 0;
      if len > limit then Stopped(TooLong)
      else if |rest| < keyLen + len then Stopped(Torn)
      else
        var raw := rest[keyLen..keyLen + len];
        One(opcode, if masked then Masked(raw, rest[..4]) else raw, rest[keyLen + len..])
  }

  /** The next data message, other frames passed over; a close ends the stream. */
  function Read(b: seq<byte>, limit: nat): Got
    decreases |b|
  {
    match ReadFrame(b, limit)
    case Stopped(why) => why
    case One(opcode, payload, rest) =>
      if opcode == TEXT || opcode == BINARY then Data(payload, rest)
      else if opcode == CLOSE then Closed
      else if |rest| < |b| then Read(rest, limit)
      else Torn
  }

  /** Every message of a stream, and how it ended. */
  function ReadAll(b: seq<byte>, limit: nat): (seq<seq<byte>>, Got)
    decreases |b|
  {
    match Read(b, limit)
    case Data(payload, rest) =>
      if |rest| < |b| then var (more, end) := ReadAll(rest, limit); ([payload] + more, end) else ([], Torn)
    case got => ([], got)
  }
}

/** The reader over a socket's bytes, and the writer to one. */
module WebSocketPair {
  import opened Wrappers
  import opened Bytes
  import opened WebSockets
  import WebSocketLaws
  import C = Cbors

  class WsReader {
    const bytes: seq<byte>
    const limit: nat
    var at: nat

    constructor (bytes: seq<byte>, limit: nat)
      ensures this.bytes == bytes && this.limit == limit && at == 0
    {
      this.bytes, this.limit, at := bytes, limit, 0;
    }

    /** Bytes read exactly, or the socket's end. */
    method ReadExact(n: nat) returns (b: Option<seq<byte>>)
      requires at <= |bytes|
      modifies this
      ensures at <= |bytes|
      ensures b == if n <= |bytes| - old(at) then Some(bytes[old(at)..old(at) + n]) else None
      ensures b.Some? ==> at == old(at) + n
    {
      if n > |bytes| - at {
        return None;
      }
      b := Some(bytes[at..at + n]);
      at := at + n;
    }

    method Read() returns (got: Got)
      requires at <= |bytes|
      modifies this
      ensures at <= |bytes| && got == WebSockets.Read(bytes[old(at)..], limit)
      ensures got.Data? ==> bytes[at..] == got.rest
    {
      while true
        invariant at <= |bytes| && WebSockets.Read(bytes[at..], limit) == WebSockets.Read(bytes[old(at)..], limit)
        decreases |bytes| - at
      {
        ghost var b := bytes[at..];
        WebSocketLaws.FrameShortens(b, limit);
        var one := NextFrame();
        if one.Stopped? {
          return one.why;
        }
        if one.opcode == TEXT || one.opcode == BINARY {
          return Data(one.payload, one.rest);
        }
        if one.opcode == CLOSE {
          return Closed;
        }
      }
    }

    method NextHeader() returns (h: Option<Header>)
      requires at <= |bytes|
      modifies this
      ensures at <= |bytes| && h == ReadHeader(bytes[old(at)..])
      ensures h.Some? ==> bytes[at..] == h.value.rest
    {
      ghost var b := bytes[at..];
      var first := ReadExact(2);
      if first.None? {
        return None;
      }
      assert first.value == b[..2] && bytes[at..] == b[2..];
      var opcode, masked, len := first.value[0] % 16, first.value[1] >= 0x80, first.value[1] % 0x80;
      if len == 126 || len == 127 {
        var width := if len == 126 then 2 else 8;
        var e := ReadExact(width);
        if e.None? {
          return None;
        }
        assert e.value == b[2..2 + width] && bytes[at..] == b[2 + width..];
        len := C.FromBigEndian(e.value);
      }
      return Some(Header(opcode, masked, len, bytes[at..]));
    }

    method NextFrame() returns (one: One)
      requires at <= |bytes|
      modifies this
      ensures at <= |bytes| && one == ReadFrame(bytes[old(at)..], limit)
      ensures one.One? ==> bytes[at..] == one.rest
    {
      hide ReadHeader, Masked;
      var h := NextHeader();
      if h.None? {
        return Stopped(Torn);
      }
      var Header(opcode, masked, len, rest) := h.value;
      if len > limit {
        return Stopped(TooLong);
      }
      var keyLen := if masked then 4 else 0;
      var key := ReadExact(keyLen);
      if key.None? {
        return Stopped(Torn);
      }
      assert key.value == rest[..keyLen] && bytes[at..] == rest[keyLen..];
      var raw := ReadExact(len);
      if raw.None? {
        return Stopped(Torn);
      }
      assert raw.value == rest[keyLen..keyLen + len] && bytes[at..] == rest[keyLen + len..];
      var payload := raw.value;
      if masked {
        payload := Unmask(payload, key.value);
      }
      return One(opcode, payload, bytes[at..]);
    }

    /** The payload, each byte in its place. */
    method Unmask(raw: seq<byte>, mask: Mask) returns (payload: seq<byte>)
      ensures payload == Masked(raw, mask)
    {
      var buffer := new byte[|raw|](i requires 0 <= i < |raw| => raw[i]);
      for i := 0 to |raw|
        invariant forall j | 0 <= j < i :: buffer[j] == Masked(raw, mask)[j]
        invariant forall j | i <= j < |raw| :: buffer[j] == raw[j]
      {
        buffer[i] := Xor(buffer[i], mask[i % 4]);
      }
      return buffer[..];
    }
  }

  class WsWriter {
    var wire: seq<byte>
    ghost var sent: seq<seq<byte>>

    /** The wire holds the frames of all that has been sent. */
    ghost predicate Valid()
      reads this
    {
      (forall i | 0 <= i < |sent| :: |sent[i]| < C.TWO_64) && wire == Wire(Sent(sent))
    }

    constructor ()
      ensures Valid() && sent == []
    {
      wire, sent := [], [];
    }

    static method HeaderOf(n: nat) returns (head: seq<byte>)
      requires n < C.TWO_64
      ensures head == [0x82] + LengthForm(true, n)
    {
      hide C.BigEndian;
      head := [0x82];
      if n < 126 {
        head := head + [0x80 + n];
      } else if n < 65536 {
        head := head + [0x80 + 126] + C.BigEndian(n, 2);
      } else {
        head := head + [0x80 + 127] + C.BigEndian(n, 8);
      }
    }

    /** One masked binary frame; a length past 64 bits cannot be written. */
    method SendBinary(payload: seq<byte>)
      requires Valid() && |payload| < C.TWO_64
      modifies this
      ensures Valid() && sent == old(sent) + [payload] && wire == old(wire) + Encode(Binary(payload))
    {
      hide LengthForm, Xor;
      var frame := HeaderOf(|payload|);
      ghost var head := frame;
      frame := frame + KEY;
      ghost var masked: seq<byte> := [];
      for i := 0 to |payload|
        invariant |masked| == i && frame == head + KEY + masked
        invariant forall j | 0 <= j < i :: masked[j] == Xor(payload[j], KEY[j % 4])
      {
        frame := frame + [Xor(payload[i], KEY[i % 4])];
        masked := masked + [Xor(payload[i], KEY[i % 4])];
      }
      assert masked == Masked(payload, KEY);
      assert frame == head + (KEY + masked);
      assert Sent(sent + [payload]) == Sent(sent) + [Binary(payload)];
      WebSocketLaws.WireGrows(Sent(sent), Binary(payload));
      wire, sent := wire + frame, sent + [payload];
    }
  }
}

/** What is written reads back. */
module WebSocketLaws {
  import opened Wrappers
  import opened Bytes
  import opened WebSockets
  import Bitwise
  import C = Cbors
  import CborLaws

  lemma FrameShortens(b: seq<byte>, limit: nat)
    ensures match ReadFrame(b, limit) case One(_, _, rest) => |rest| < |b| case Stopped(why) => !why.Data?
  {
    hide Masked, C.FromBigEndian;
  }

  lemma XorTwice(a: byte, k: byte)
    ensures Xor(Xor(a, k), k) == a
  {
    Bitwise.Pow2Of8();
    Bitwise.XorTwice(a, k, 8);
  }

  lemma MaskedTwice(payload: seq<byte>, mask: Mask)
    ensures Masked(Masked(payload, mask), mask) == payload
  {
    forall i | 0 <= i < |payload| ensures Masked(Masked(payload, mask), mask)[i] == payload[i] {
      XorTwice(payload[i], mask[i % 4]);
    }
  }

  lemma HeaderReads(f: Frame, tail: seq<byte>)
    requires Writable(f)
    ensures var head := [(if f.fin then 0x80 else 0) + f.opcode] + LengthForm(f.mask.Some?, |f.payload|);
      ReadHeader(head + tail) == Some(Header(f.opcode, f.mask.Some?, |f.payload|, tail))
  {
    hide C.BigEndian, C.FromBigEndian, C.Pow256;
    var n, bit := |f.payload|, if f.mask.Some? then 0x80 else 0;
    var head := [(if f.fin then 0x80 else 0) + f.opcode] + LengthForm(f.mask.Some?, n);
    var b := head + tail;
    var width := if n < 126 then 0 else if n < 0x1_0000 then 2 else 8;
    CborLaws.PowWide();
    if n >= 126 {
      assert b[2..2 + width] == C.BigEndian(n, width);
      CborLaws.BigEndianReads(n, width);
    }
    assert b[2 + width..] == tail;
  }

  /** A frame reads back as it was written, whatever follows. */
  lemma FrameReads(f: Frame, tail: seq<byte>, limit: nat)
    requires Writable(f) && |f.payload| <= limit
    ensures ReadFrame(Encode(f) + tail, limit) == One(f.opcode, f.payload, tail)
  {
    hide ReadHeader, LengthForm, Masked;
    var head := [(if f.fin then 0x80 else 0) + f.opcode] + LengthForm(f.mask.Some?, |f.payload|);
    var keyLen := if f.mask.Some? then 4 else 0;
    var body := match f.mask case None => f.payload case Some(mask) => mask + Masked(f.payload, mask);
    assert Encode(f) + tail == head + (body + tail);
    HeaderReads(f, body + tail);
    var rest, n := body + tail, |f.payload|;
    assert rest[keyLen + n..] == tail;
    if f.mask.Some? {
      assert rest[..4] == f.mask.value && rest[4..4 + n] == Masked(f.payload, f.mask.value);
      MaskedTwice(f.payload, f.mask.value);
    } else {
      assert rest[0..n] == f.payload;
    }
  }

  /** Frames written one after another are the frames written. */
  lemma {:induction false} WireGrows(frames: seq<Frame>, f: Frame)
    requires Writable(f) && forall i | 0 <= i < |frames| :: Writable(frames[i])
    ensures Wire(frames + [f]) == Wire(frames) + Encode(f)
  {
    hide Encode;
    if frames == [] {
      assert [] + [f] == [f] && Wire([]) == [] && Encode(f) + [] == Encode(f);
    } else {
      assert (frames + [f])[1..] == frames[1..] + [f];
      WireGrows(frames[1..], f);
    }
  }

  /** The payloads of the data frames before the first close. */
  function Messages(frames: seq<Frame>): seq<seq<byte>> {
    if frames == [] || frames[0].opcode == CLOSE then []
    else (if frames[0].opcode == TEXT || frames[0].opcode == BINARY then [frames[0].payload] else []) + Messages(frames[1..])
  }

  predicate Closes(frames: seq<Frame>) {
    exists i | 0 <= i < |frames| :: frames[i].opcode == CLOSE
  }

  /** A stream of frames within the limit reads as its data frames' payloads, in order, pings and
      the like passed over, up to its close or its end. */
  lemma {:induction false} StreamReads(frames: seq<Frame>, limit: nat)
    requires forall i | 0 <= i < |frames| :: Writable(frames[i]) && |frames[i].payload| <= limit
    ensures ReadAll(Wire(frames), limit) == (Messages(frames), if Closes(frames) then Closed else Torn)
  {
    hide Encode, ReadFrame;
    if frames == [] {
      assert ReadFrame([], limit) == Stopped(Torn) by { NothingReads(limit); }
    } else {
      var f, more := frames[0], frames[1..];
      FrameReads(f, Wire(more), limit);
      StreamReads(more, limit);
      FrameShortens(Encode(f) + Wire(more), limit);
      assert Closes(frames) <==> f.opcode == CLOSE || Closes(more) by { ClosesLater(frames); }
      if f.opcode != TEXT && f.opcode != BINARY {
        assert [] + Messages(more) == Messages(more);
        ReadShortens(Wire(more), limit);
      }
    }
  }

  lemma {:induction false} ReadShortens(b: seq<byte>, limit: nat)
    ensures Read(b, limit).Data? ==> |Read(b, limit).rest| < |b|
    decreases |b|
  {
    hide ReadFrame;
    FrameShortens(b, limit);
    var one := ReadFrame(b, limit);
    if one.One? { ReadShortens(one.rest, limit); }
  }

  lemma NothingReads(limit: nat)
    ensures ReadFrame([], limit) == Stopped(Torn)
  {
  }

  lemma ClosesLater(frames: seq<Frame>)
    requires frames != []
    ensures Closes(frames) <==> frames[0].opcode == CLOSE || Closes(frames[1..])
  {
    if i :| 0 <= i < |frames[1..]| && frames[1..][i].opcode == CLOSE {
      assert frames[i + 1].opcode == CLOSE;
    }
    if i :| 0 < i < |frames| && frames[i].opcode == CLOSE {
      assert frames[1..][i - 1].opcode == CLOSE;
    }
  }

  /** What a client sends reads back as the payloads it was given, in order. */
  lemma {:induction false} SentReadBack(payloads: seq<seq<byte>>, limit: nat)
    requires limit < C.TWO_64 && forall i | 0 <= i < |payloads| :: |payloads[i]| <= limit
    ensures ReadAll(Wire(Sent(payloads)), limit) == (payloads, Torn)
  {
    StreamReads(Sent(payloads), limit);
    SentMessages(payloads);
  }

  lemma {:induction false} SentMessages(payloads: seq<seq<byte>>)
    ensures Messages(Sent(payloads)) == payloads && !Closes(Sent(payloads))
  {
    if payloads != [] {
      SentMessages(payloads[1..]);
      assert Sent(payloads)[1..] == Sent(payloads[1..]);
    }
  }

  /** A length is written in its shortest form: no header that reads as the same length is
      shorter. */
  lemma LengthIsShortest(b: seq<byte>, n: nat)
    requires ReadHeader(b).Some? && ReadHeader(b).value.len == n
    ensures n < C.TWO_64 && 1 + |LengthForm(ReadHeader(b).value.masked, n)| <= |b| - |ReadHeader(b).value.rest|
  {
    hide C.BigEndian, C.Pow256, C.FromBigEndian;
    var form := b[1] % 0x80;
    var width := if form == 126 then 2 else if form == 127 then 8 else 0;
    CborLaws.PowWide();
    CborLaws.BigEndianWrites(b[2..2 + width]);
  }

  /** With a header claiming more than the limit, no payload byte is needed to refuse it. */
  lemma OverLimitIsRefused(f: Frame, tail: seq<byte>, limit: nat)
    requires Writable(f) && |f.payload| > limit
    ensures var head := [(if f.fin then 0x80 else 0) + f.opcode] + LengthForm(f.mask.Some?, |f.payload|);
      Read(head + tail, limit) == TooLong
  {
    HeaderReads(f, tail);
  }
}
