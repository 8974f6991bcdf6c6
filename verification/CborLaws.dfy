/** The reader undoes the encoder, and the encoder's is the shortest of a value's encodings. */
module CborLaws {
  import opened Wrappers
  import opened Bytes
  import opened Cbors

  // Numbers.

  lemma {:induction false} BigEndianReads(n: nat, width: nat)
    requires n < Pow256(width)
    ensures FromBigEndian(BigEndian(n, width)) == n
  {
    if width > 0 {
      BigEndianReads(n / 0x100, width - 1);
      assert BigEndian(n, width)[..width - 1] == BigEndian(n / 0x100, width - 1);
    }
  }

  lemma {:induction false} BigEndianWrites(raw: seq<byte>)
    ensures FromBigEndian(raw) < Pow256(|raw|) && BigEndian(FromBigEndian(raw), |raw|) == raw
  {
    if raw != [] {
      var init, last := raw[..|raw| - 1], raw[|raw| - 1];
      BigEndianWrites(init);
      var n, m: nat := FromBigEndian(raw), FromBigEndian(init);
      assert n == 0x100 * m + last as int;
      assert n / 0x100 == m && n % 0x100 == last as int;
      assert raw == init + [last];
    }
  }

  lemma Widths(n: nat)
    ensures n < TWO_64 ==> n < Pow256(Width(n)) || Width(n) == 0
    ensures Pow256(1) == 0x100 && Pow256(2) == 0x1_0000 && Pow256(4) == 0x1_0000_0000 && Pow256(8) == TWO_64
  {
    PowWide();
  }

  lemma PowWide()
    ensures Pow256(1) == 0x100 && Pow256(2) == 0x1_0000 && Pow256(4) == 0x1_0000_0000 && Pow256(8) == TWO_64
  {
    assert Pow256(1) == 0x100;
    assert Pow256(2) == 0x1_0000;
    assert Pow256(3) == 0x100_0000;
    assert Pow256(4) == 0x1_0000_0000;
    assert Pow256(5) == 0x100_0000_0000;
    assert Pow256(6) == 0x1_0000_0000_0000;
    assert Pow256(7) == 0x100_0000_0000_0000;
  }

  // Heads.

  lemma HeadReads(major: Major, n: nat, s: seq<byte>)
    requires n < TWO_64
    ensures ReadHead(EncodeHead(major, n) + s) == Some(Read(Head(major, n), s)) && |EncodeHead(major, n)| > 0
  {
    hide BigEndian, FromBigEndian, Pow256;
    var b, width := EncodeHead(major, n) + s, Width(n);
    Widths(n);
    assert b[0] == major * 32 + LowBits(n) && b[0] / 32 == major && b[0] % 32 == LowBits(n);
    assert WidthOf(LowBits(n)) == Some(width);
    assert b[1..1 + width] == BigEndian(n, width) && b[1 + width..] == s;
    if width > 0 { BigEndianReads(n, width); }
  }

  /** A head read is no shorter than the shortest, and as short only if it is the shortest. */
  lemma HeadIsShortest(b: seq<byte>)
    requires ReadHead(b).Some?
    ensures var Read(Head(major, n), rest) := ReadHead(b).value;
      && n < TWO_64 && |EncodeHead(major, n)| + |rest| <= |b| && |rest| < |b| && rest == b[|b| - |rest|..]
      && (|EncodeHead(major, n)| + |rest| == |b| <==> b == EncodeHead(major, n) + rest)
  {
    hide BigEndian, FromBigEndian, Pow256;
    var Read(Head(major, n), rest) := ReadHead(b).value;
    var low := b[0] % 32;
    var width := WidthOf(low).value;
    var raw := b[1..1 + width];
    BigEndianWrites(raw);
    PowWide();
    assert b == [b[0]] + raw + rest;
    if width == 0 {
      assert n == low && Width(n) == 0;
      assert EncodeHead(major, n) == [b[0]] + BigEndian(n, 0);
      assert raw == [] && BigEndian(n, 0) == [];
    } else {
      assert Width(n) <= width;
      if Width(n) == width {
        assert LowBits(n) == low;
        assert EncodeHead(major, n) == [b[0]] + raw;
      }
    }
  }

  // Items.

  lemma {:induction false} ItemReads(v: Cbor, depth: nat, s: seq<byte>)
    requires Fits(v, depth)
    ensures ReadItem(Encode(v) + s, depth) == Some(Read(v, s)) && |Encode(v)| > 0
    decreases v
  {
    hide ReadHead, EncodeHead, Utf8;
    match v
    case Int(n) => IntReads(n, depth, s);
    case Bytes(raw) => RawReads(2, raw, s);
    case Text(raw) => RawReads(3, raw, s);
    case Array(items) => ArrayReads(items, depth, s);
    case Map(entries) => MapReads(entries, depth, s);
  }

  lemma ArrayReads(items: seq<Cbor>, depth: nat, s: seq<byte>)
    requires Fits(Array(items), depth)
    ensures ReadItem(Encode(Array(items)) + s, depth) == Some(Read(Array(items), s)) && |Encode(Array(items))| > 0
    decreases items, 1
  {
    hide ReadHead, EncodeHead, EncodeItems, ReadItems, EncodeEntries, ReadEntries, Utf8;
    ItemsRead(items, depth - 1, s);
    HeadReads(4, |items|, EncodeItems(items) + s);
    assert Encode(Array(items)) + s == EncodeHead(4, |items|) + (EncodeItems(items) + s);
  }

  lemma MapReads(entries: seq<Entry>, depth: nat, s: seq<byte>)
    requires Fits(Map(entries), depth)
    ensures ReadItem(Encode(Map(entries)) + s, depth) == Some(Read(Map(entries), s)) && |Encode(Map(entries))| > 0
    decreases entries, 1
  {
    hide ReadHead, EncodeHead, EncodeItems, ReadItems, EncodeEntries, ReadEntries, Utf8;
    EntriesRead(entries, depth - 1, s);
    HeadReads(5, |entries|, EncodeEntries(entries) + s);
    assert Encode(Map(entries)) + s == EncodeHead(5, |entries|) + (EncodeEntries(entries) + s);
  }

  lemma RawReads(major: Major, raw: seq<byte>, s: seq<byte>)
    requires |raw| < TWO_64
    ensures var b := EncodeHead(major, |raw|) + raw + s;
      ReadHead(b) == Some(Read(Head(major, |raw|), raw + s)) && |b| > |raw| + |s| && (raw + s)[..|raw|] == raw && (raw + s)[|raw|..] == s
  {
    hide ReadHead, EncodeHead;
    HeadReads(major, |raw|, raw + s);
    assert EncodeHead(major, |raw|) + raw + s == EncodeHead(major, |raw|) + (raw + s);
  }

  lemma {:induction false} ItemsRead(items: seq<Cbor>, depth: nat, s: seq<byte>)
    requires forall i | 0 <= i < |items| :: Fits(items[i], depth)
    ensures ReadItems(EncodeItems(items) + s, depth, |items|) == Some(Read(items, s)) && |EncodeItems(items)| >= |items|
    decreases items, 0
  {
    hide ReadItem, Encode, Fits;
    if items == [] {
      assert EncodeItems(items) + s == s;
    } else {
      var first, more := items[0], items[1..];
      ItemReads(first, depth, EncodeItems(more) + s);
      ItemsRead(more, depth, s);
      assert EncodeItems(items) + s == Encode(first) + (EncodeItems(more) + s);
      assert items == [first] + more;
    }
  }

  lemma IntReads(n: int, depth: nat, s: seq<byte>)
    requires -TWO_63 <= n < TWO_63
    ensures ReadItem(EncodeInt(n) + s, depth) == Some(Read(Int(n), s)) && |EncodeInt(n)| > 0
  {
    hide ReadHead;
    HeadReads(if n >= 0 then 0 else 1, if n >= 0 then n else -1 - n, s);
  }

  lemma {:induction false} EntriesRead(entries: seq<Entry>, depth: nat, s: seq<byte>)
    requires forall i | 0 <= i < |entries| :: -TWO_63 <= entries[i].key < TWO_63 && Fits(entries[i].value, depth)
    ensures ReadEntries(EncodeEntries(entries) + s, depth, |entries|) == Some(Read(entries, s)) && |EncodeEntries(entries)| >= |entries|
    decreases entries, 0
  {
    hide ReadEntry, EncodeEntry, Fits;
    if entries == [] {
      assert EncodeEntries(entries) + s == s;
    } else {
      var first, more := entries[0], entries[1..];
      EntryReads(first, depth, EncodeEntries(more) + s);
      EntriesRead(more, depth, s);
      assert EncodeEntries(entries) + s == EncodeEntry(first) + (EncodeEntries(more) + s);
      assert entries == [first] + more;
    }
  }

  lemma EntryReads(e: Entry, depth: nat, s: seq<byte>)
    requires -TWO_63 <= e.key < TWO_63 && Fits(e.value, depth)
    ensures ReadEntry(EncodeEntry(e) + s, depth) == Some(Read(e, s)) && |EncodeEntry(e)| > 0
    decreases e
  {
    hide ReadItem, Encode, EncodeInt, Fits;
    ItemReads(e.value, depth, s);
    IntReads(e.key, 0, Encode(e.value) + s);
    assert EncodeEntry(e) + s == EncodeInt(e.key) + (Encode(e.value) + s);
  }

  /** Every value with containers at most two deep reads back from its encoding. */
  lemma ParseInverts(v: Cbor)
    requires Fits(v, DEPTH)
    ensures Parse(Encode(v)) == Some(v)
  {
    hide ReadItem, Encode, Fits;
    ItemReads(v, DEPTH, []);
    assert Encode(v) + [] == Encode(v);
  }

  // What is read is no shorter than its encoding.

  /** `used` bytes of `b`, up to `rest`, read as what `enc` encodes: `enc` is no longer, and as long
      only if it is those bytes. */
  ghost predicate Shortest(b: seq<byte>, enc: seq<byte>, rest: seq<byte>) {
    && |enc| + |rest| <= |b| && rest == b[|b| - |rest|..]
    && (|enc| + |rest| == |b| <==> b == enc + rest)
  }

  lemma ShortestBoth(b: seq<byte>, enc1: seq<byte>, mid: seq<byte>, enc2: seq<byte>, rest: seq<byte>)
    requires Shortest(b, enc1, mid) && Shortest(mid, enc2, rest)
    ensures Shortest(b, enc1 + enc2, rest)
  {
    var lead := b[..|b| - |mid|];
    assert b == lead + mid;
    assert rest == b[|b| - |rest|..];
    if b == enc1 + enc2 + rest {
      assert b == enc1 + (enc2 + rest);
      assert b[|b| - |mid|..] == mid;
    }
    if |enc1 + enc2| + |rest| == |b| {
      assert b == enc1 + mid && mid == enc2 + rest;
      assert b == enc1 + enc2 + rest;
    }
  }

  lemma ShortestHead(b: seq<byte>)
    requires ReadHead(b).Some?
    ensures var Read(Head(major, n), rest) := ReadHead(b).value;
      n < TWO_64 && |rest| < |b| && Shortest(b, EncodeHead(major, n), rest)
  {
    hide ReadHead, EncodeHead;
    HeadIsShortest(b);
  }

  /** What is read fits the reader's words, and was written no shorter than it is encoded. */
  lemma {:induction false} ItemIsShortest(b: seq<byte>, depth: nat)
    requires ReadItem(b, depth).Some?
    ensures var Read(v, rest) := ReadItem(b, depth).value;
      Fits(v, depth) && |rest| < |b| && Shortest(b, Encode(v), rest)
    decreases depth, 0
  {
    hide ReadHead, EncodeHead, Utf8, Shortest;
    ShortestHead(b);
    var Read(Head(major, n), rest) := ReadHead(b).value;
    match major
    case 0 =>
    case 1 =>
    case 2 => RawIsShortest(b, 2, n, rest);
    case 3 => RawIsShortest(b, 3, n, rest);
    case 4 =>
      ItemsAreShortest(rest, depth - 1, n);
      var Read(items, after) := ReadItems(rest, depth - 1, n).value;
      ShortestBoth(b, EncodeHead(4, n), rest, EncodeItems(items), after);
    case 5 =>
      EntriesAreShortest(rest, depth - 1, n);
      var Read(entries, after) := ReadEntries(rest, depth - 1, n).value;
      ShortestBoth(b, EncodeHead(5, n), rest, EncodeEntries(entries), after);
    case _ =>
  }

  lemma RawIsShortest(b: seq<byte>, major: Major, n: nat, rest: seq<byte>)
    requires Shortest(b, EncodeHead(major, n), rest) && n <= |rest|
    ensures Shortest(b, EncodeHead(major, n) + rest[..n], rest[n..])
  {
    hide EncodeHead;
    assert rest == rest[..n] + rest[n..];
    ShortestBoth(b, EncodeHead(major, n), rest, rest[..n], rest[n..]);
  }

  lemma {:induction false} ItemsAreShortest(b: seq<byte>, depth: nat, n: nat)
    requires ReadItems(b, depth, n).Some?
    ensures var Read(items, rest) := ReadItems(b, depth, n).value;
      |items| == n && |rest| <= |b| && (forall i | 0 <= i < n :: Fits(items[i], depth)) && Shortest(b, EncodeItems(items), rest)
    decreases depth, n + 1
  {
    hide ReadItem, Encode, Fits, Shortest;
    if n == 0 {
      assert Shortest(b, [], b) by { ShortestNone(b); }
    } else {
      ItemIsShortest(b, depth);
      var first := ReadItem(b, depth).value;
      ItemsAreShortest(first.rest, depth, n - 1);
      var more := ReadItems(first.rest, depth, n - 1).value;
      var items := [first.value] + more.value;
      assert items[0] == first.value && items[1..] == more.value;
      forall i | 0 <= i < n ensures Fits(items[i], depth) {
        if i > 0 { assert items[i] == more.value[i - 1]; }
      }
      ShortestBoth(b, Encode(first.value), first.rest, EncodeItems(more.value), more.rest);
    }
  }

  lemma ShortestNone(b: seq<byte>)
    ensures Shortest(b, [], b)
  {
    assert [] + b == b;
  }

  lemma EntryIsShortest(b: seq<byte>, depth: nat)
    requires ReadEntry(b, depth).Some?
    ensures var Read(e, rest) := ReadEntry(b, depth).value;
      && -TWO_63 <= e.key < TWO_63 && Fits(e.value, depth) && |rest| < |b| && Shortest(b, EncodeEntry(e), rest)
    decreases depth, 1
  {
    hide ReadItem, EncodeInt, Shortest;
    ItemIsShortest(b, 0);
    var key := ReadItem(b, 0).value;
    ItemIsShortest(key.rest, depth);
    var value := ReadItem(key.rest, depth).value;
    ShortestBoth(b, EncodeInt(key.value.n), key.rest, Encode(value.value), value.rest);
  }

  lemma {:induction false} EntriesAreShortest(b: seq<byte>, depth: nat, n: nat)
    requires ReadEntries(b, depth, n).Some?
    ensures var Read(entries, rest) := ReadEntries(b, depth, n).value;
      && |entries| == n && |rest| <= |b|
      && (forall i | 0 <= i < n :: -TWO_63 <= entries[i].key < TWO_63 && Fits(entries[i].value, depth))
      && Shortest(b, EncodeEntries(entries), rest)
    decreases depth, n + 2
  {
    hide ReadEntry, EncodeEntry, Fits, Shortest;
    if n == 0 {
      assert Shortest(b, [], b) by { ShortestNone(b); }
    } else {
      EntryIsShortest(b, depth);
      var first := ReadEntry(b, depth).value;
      EntriesAreShortest(first.rest, depth, n - 1);
      var more := ReadEntries(first.rest, depth, n - 1).value;
      var entries := [first.value] + more.value;
      assert entries[0] == first.value && entries[1..] == more.value;
      forall i | 0 <= i < n ensures -TWO_63 <= entries[i].key < TWO_63 && Fits(entries[i].value, depth) {
        if i > 0 { assert entries[i] == more.value[i - 1]; }
      }
      ShortestBoth(b, EncodeEntry(first.value), first.rest, EncodeEntries(more.value), more.rest);
    }
  }

  /** Bytes that parse hold a value of the reader's, its encoding is no longer than they are, and it
      is as long only when they are its encoding: a value has one shortest encoding. */
  lemma EncodingIsShortest(b: seq<byte>)
    requires Parse(b).Some?
    ensures var v := Parse(b).value;
      Fits(v, DEPTH) && |Encode(v)| <= |b| && (|Encode(v)| == |b| <==> b == Encode(v))
  {
    hide ReadItem, Encode, Fits;
    ItemIsShortest(b, DEPTH);
    var v := Parse(b).value;
    assert Encode(v) + [] == Encode(v);
  }
}
