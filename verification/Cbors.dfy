/**
 The part of CBOR (RFC 8949, section 3) the directory uses, major types 0 to 5 with integer map
 keys: each value's shortest encoding, and a reader over bytes, total and of bounded depth.
 */
module Cbors {
  import opened Wrappers
  import opened Bytes

  datatype Entry = Entry(key: int, value: Cbor)

  /** Text is held as its UTF-8 bytes. */
  datatype Cbor =
    | Int(n: int)
    | Bytes(raw: seq<byte>)
    | Text(raw: seq<byte>)
    | Array(items: seq<Cbor>)
    | Map(entries: seq<Entry>)

  const TWO_63 := 0x8000_0000_0000_0000
  const TWO_64 := 0x1_0000_0000_0000_0000

  type Major = m: int | 0 <= m < 8

  // Text.

  predicate Tail(b: byte) { 0x80 <= b < 0xC0 }

  /** The bytes of one character at the front of `raw`, if it begins with one (RFC 3629). */
  function CharLen(raw: seq<byte>): (n: nat)
    ensures n <= |raw|
  {
    if |raw| >= 1 && raw[0] < 0x80 then 1
    else if |raw| >= 2 && 0xC2 <= raw[0] < 0xE0 && Tail(raw[1]) then 2
    else if |raw| >= 3 && 0xE0 <= raw[0] < 0xF0 && Tail(raw[1]) && Tail(raw[2])
         && (raw[0] == 0xE0 ==> raw[1] >= 0xA0) && (raw[0] == 0xED ==> raw[1] < 0xA0) then 3
    else if |raw| >= 4 && 0xF0 <= raw[0] < 0xF5 && Tail(raw[1]) && Tail(raw[2]) && Tail(raw[3])
         && (raw[0] == 0xF0 ==> raw[1] >= 0x90) && (raw[0] == 0xF4 ==> raw[1] < 0x90) then 4
    else 0
  }

  predicate Utf8(raw: seq<byte>) {
    raw == [] || (CharLen(raw) > 0 && Utf8(raw[CharLen(raw)..]))
  }

  // Heads.

  function BigEndian(n: nat, width: nat): (raw: seq<byte>)
    ensures |raw| == width
  {
    if width == 0 then [] else BigEndian(n / 0x100, width - 1) + [n % 0x100]
  }

  function FromBigEndian(raw: seq<byte>): nat {
    if raw == [] then 0 else 0x100 * FromBigEndian(raw[..|raw| - 1]) + raw[|raw| - 1] as int
  }

  function Pow256(width: nat): nat {
    if width == 0 then 1 else 0x100 * Pow256(width - 1)
  }

  lemma FromBigEndian4(raw: seq<byte>)
    requires |raw| == 4
    ensures FromBigEndian(raw) < 0x1_0000_0000
  {
    assert FromBigEndian(raw[..1]) == raw[0] as int by { assert raw[..1][..0] == []; }
    assert raw[..2][..1] == raw[..1] && raw[..3][..2] == raw[..2];
  }

  /** How many bytes a head of argument `n` takes after its first, at least. */
  function Width(n: nat): nat {
    if n < 24 then 0 else if n < 0x100 then 1 else if n < 0x1_0000 then 2 else if n < 0x1_0000_0000 then 4 else 8
  }

  /** What the low five bits of a first byte say of a head so wide. */
  function LowBits(n: nat): (low: int)
    ensures 0 <= low < 28
  {
    match Width(n) case 0 => (if n < 24 then n else 0) case 1 => 24 case 2 => 25 case 4 => 26 case _ => 27
  }

  /** The shortest head. */
  function EncodeHead(major: Major, n: nat): seq<byte> {
    [major * 32 + LowBits(n)] + BigEndian(n, Width(n))
  }

  datatype Read<T> = Read(value: T, rest: seq<byte>)

  datatype Head = Head(major: Major, n: nat)

  function WidthOf(low: int): Option<nat> {
    if low < 24 then Some(0) else match low case 24 => Some(1) case 25 => Some(2) case 26 => Some(4) case 27 => Some(8) case _ => None
  }

  /** An item's head at the front of `b`; none for a torn, a reserved or an indefinite one. */
  function ReadHead(b: seq<byte>): Option<Read<Head>> {
    if b == [] then None
    else
      var major, low := b[0] / 32, b[0] % 32;
      match WidthOf(low)
      case None => None
      case Some(width) =>
        if |b| < 1 + width then None
        else Some(Read(Head(major, if width == 0 then low else FromBigEndian(b[1..1 + width])), b[1 + width..]))
  }

  // Items.

  function EncodeInt(n: int): seq<byte> {
    if n >= 0 then EncodeHead(0, n) else EncodeHead(1, -1 - n)
  }

  function Encode(v: Cbor): seq<byte>
    decreases v
  {
    match v
    case Int(n) => EncodeInt(n)
    case Bytes(raw) => EncodeHead(2, |raw|) + raw
    case Text(raw) => EncodeHead(3, |raw|) + raw
    case Array(items) => EncodeHead(4, |items|) + EncodeItems(items)
    case Map(entries) => EncodeHead(5, |entries|) + EncodeEntries(entries)
  }

  function EncodeItems(items: seq<Cbor>): seq<byte>
    decreases items
  {
    if items == [] then [] else Encode(items[0]) + EncodeItems(items[1..])
  }

  function EncodeEntries(entries: seq<Entry>): seq<byte>
    decreases entries
  {
    if entries == [] then []
    else EncodeEntry(entries[0]) + EncodeEntries(entries[1..])
  }

  function EncodeEntry(e: Entry): seq<byte>
    decreases e
  {
    EncodeInt(e.key) + Encode(e.value)
  }

  /** What the reader's words hold: 64-bit integers and lengths, text that is UTF-8, and
      containers `depth` deep. */
  predicate Fits(v: Cbor, depth: nat)
    decreases v
  {
    match v
    case Int(n) => -TWO_63 <= n < TWO_63
    case Bytes(raw) => |raw| < TWO_64
    case Text(raw) => |raw| < TWO_64 && Utf8(raw)
    case Array(items) => depth > 0 && |items| < TWO_64 && forall i | 0 <= i < |items| :: Fits(items[i], depth - 1)
    case Map(entries) =>
      depth > 0 && |entries| < TWO_64
      && forall i | 0 <= i < |entries| :: -TWO_63 <= entries[i].key < TWO_63 && Fits(entries[i].value, depth - 1)
  }

  /** One item at the front of `b`, containers only while `depth` allows. */
  function ReadItem(b: seq<byte>, depth: nat): Option<Read<Cbor>>
    decreases depth, 0
  {
    match ReadHead(b)
    case None => None
    case Some(Read(Head(major, n), rest)) =>
      match major
      case 0 => if n < TWO_63 then Some(Read(Int(n), rest)) else None
      case 1 => if n < TWO_63 then Some(Read(Int(-1 - n), rest)) else None
      case 2 => if n <= |rest| then Some(Read(Bytes(rest[..n]), rest[n..])) else None
      case 3 => if n <= |rest| && Utf8(rest[..n]) then Some(Read(Text(rest[..n]), rest[n..])) else None
      case 4 =>
        if depth == 0 || n > |rest| then None
        else (match ReadItems(rest, depth - 1, n) case None => None case Some(r) => Some(Read(Array(r.value), r.rest)))
      case 5 =>
        if depth == 0 || n > |rest| then None
        else (match ReadEntries(rest, depth - 1, n) case None => None case Some(r) => Some(Read(Map(r.value), r.rest)))
      case _ => None
  }

  function ReadItems(b: seq<byte>, depth: nat, n: nat): Option<Read<seq<Cbor>>>
    decreases depth, n + 1
  {
    if n == 0 then Some(Read([], b))
    else
      match ReadItem(b, depth)
      case None => None
      case Some(first) =>
        match ReadItems(first.rest, depth, n - 1)
        case None => None
        case Some(more) => Some(Read([first.value] + more.value, more.rest))
  }

  function ReadEntry(b: seq<byte>, depth: nat): Option<Read<Entry>>
    decreases depth, 1
  {
    match ReadItem(b, 0)
    case Some(Read(Int(key), rest)) =>
      (match ReadItem(rest, depth) case None => None case Some(r) => Some(Read(Entry(key, r.value), r.rest)))
    case _ => None
  }

  function ReadEntries(b: seq<byte>, depth: nat, n: nat): Option<Read<seq<Entry>>>
    decreases depth, n + 2
  {
    if n == 0 then Some(Read([], b))
    else
      match ReadEntry(b, depth)
      case None => None
      case Some(first) =>
        match ReadEntries(first.rest, depth, n - 1)
        case None => None
        case Some(more) => Some(Read([first.value] + more.value, more.rest))
  }

  const DEPTH := 2

  /** The one item `b` holds, with nothing left over. */
  function Parse(b: seq<byte>): Option<Cbor> {
    match ReadItem(b, DEPTH)
    case None => None
    case Some(r) => if r.rest == [] then Some(r.value) else None
  }
}

/** The same reader over a cursor. */
module CborReader {
  import opened Wrappers
  import opened Bytes
  import opened Cbors

  class Reader {
    const bytes: seq<byte>
    var at: nat

    constructor (bytes: seq<byte>)
      ensures this.bytes == bytes && at == 0
    {
      this.bytes, at := bytes, 0;
    }

    /** The cursor stands where reading from `from` left off. */
    ghost predicate Left<T>(from: nat, r: Option<Read<T>>, v: Option<T>)
      reads this
    {
      at <= |bytes| && from <= |bytes| &&
      match r
      case None => v.None?
      case Some(read) => v == Some(read.value) && bytes[at..] == read.rest
    }

    method NextHead() returns (head: Option<Head>)
      requires at <= |bytes|
      modifies this
      ensures Left(old(at), ReadHead(bytes[old(at)..]), head)
    {
      if at == |bytes| {
        return None;
      }
      ghost var b := bytes[at..];
      var first := bytes[at];
      at := at + 1;
      assert bytes[at..] == b[1..];
      var width := WidthOf(first % 32);
      if width.None? {
        return None;
      }
      if width.value == 0 {
        return Some(Head(first / 32, first % 32));
      }
      if |bytes| - at < width.value {
        return None;
      }
      var n := 0;
      for i := 0 to width.value
        invariant n == FromBigEndian(bytes[at..at + i])
      {
        assert bytes[at..at + i + 1][..i] == bytes[at..at + i];
        n := 0x100 * n + bytes[at + i] as int;
      }
      assert b[1..1 + width.value] == bytes[at..at + width.value];
      at := at + width.value;
      return Some(Head(first / 32, n));
    }

    method NextItem(depth: nat) returns (v: Option<Cbor>)
      requires at <= |bytes|
      modifies this
      ensures Left(old(at), ReadItem(bytes[old(at)..], depth), v)
      decreases depth, 0
    {
      var head := NextHead();
      if head.None? {
        return None;
      }
      var Head(major, n) := head.value;
      ghost var rest := bytes[at..];
      if major == 0 || major == 1 {
        return if n >= TWO_63 then None else Some(Int(if major == 0 then n else -1 - n));
      }
      if major == 2 || major == 3 {
        if n > |bytes| - at {
          return None;
        }
        var raw := bytes[at..at + n];
        assert raw == rest[..n];
        at := at + n;
        assert bytes[at..] == rest[n..];
        return if major == 2 then Some(Bytes(raw)) else if Utf8(raw) then Some(Text(raw)) else None;
      }
      if (major != 4 && major != 5) || depth == 0 || n > |bytes| - at {
        return None;
      }
      if major == 4 {
        var items := NextItems(depth - 1, n);
        return if items.None? then None else Some(Array(items.value));
      }
      var entries := NextEntries(depth - 1, n);
      return if entries.None? then None else Some(Map(entries.value));
    }

    method NextItems(depth: nat, n: nat) returns (items: Option<seq<Cbor>>)
      requires at <= |bytes|
      modifies this
      ensures Left(old(at), ReadItems(bytes[old(at)..], depth, n), items)
      decreases depth, n + 1
    {
      if n == 0 {
        return Some([]);
      }
      var first := NextItem(depth);
      if first.None? {
        return None;
      }
      var more := NextItems(depth, n - 1);
      return if more.None? then None else Some([first.value] + more.value);
    }

    method NextEntries(depth: nat, n: nat) returns (entries: Option<seq<Entry>>)
      requires at <= |bytes|
      modifies this
      ensures Left(old(at), ReadEntries(bytes[old(at)..], depth, n), entries)
      decreases depth, n + 2
    {
      if n == 0 {
        return Some([]);
      }
      var first := NextEntry(depth);
      if first.None? {
        return None;
      }
      var more := NextEntries(depth, n - 1);
      return if more.None? then None else Some([first.value] + more.value);
    }

    method NextEntry(depth: nat) returns (entry: Option<Entry>)
      requires at <= |bytes|
      modifies this
      ensures Left(old(at), ReadEntry(bytes[old(at)..], depth), entry)
      decreases depth, 1
    {
      var key := NextItem(0);
      if key.None? || !key.value.Int? {
        return None;
      }
      var value := NextItem(depth);
      return if value.None? then None else Some(Entry(key.value.n, value.value));
    }
  }

  method ParseBytes(bytes: seq<byte>) returns (v: Option<Cbor>)
    ensures v == Parse(bytes)
  {
    var r := new Reader(bytes);
    assert bytes[0..] == bytes;
    v := r.NextItem(DEPTH);
    if v.Some? && r.at != |bytes| {
      return None;
    }
  }
}
