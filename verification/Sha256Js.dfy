/** SHA-256 over typed arrays, with the numbers and operators of ECMAScript, computes the
    standard's digest. */
module Sha256Js {
  import opened Bitwise
  import opened Bytes
  import opened Sha256
  import C = Cbors
  import CborLaws

  // A number, as the integer it is; sums of a few 32-bit numbers are exact.

  /** ToUint32. */
  function U(x: int): u32 { x % TWO_32 }

  /** ToInt32 of a 32-bit pattern. */
  function Signed(u: u32): (x: int)
    ensures U(x) == u
  {
    if u < 0x8000_0000 then u else u - TWO_32
  }

  /** `x | 0`. */
  function Or0(x: int): int { Signed(U(x)) }

  function JsXor(x: int, y: int): int { Signed(Wise(Xor, U(x), U(y))) }

  function JsAnd(x: int, y: int): int { Signed(Wise(And, U(x), U(y))) }

  function JsOr(x: int, y: int): int { Signed(Wise(Or, U(x), U(y))) }

  function JsNot(x: int): int { Signed(Not(U(x))) }

  /** `x >>> n` and `x << n`. */
  function JsShr(x: int, n: nat): int { Shr(U(x), n) }

  function JsShl(x: int, n: nat): int { Signed(Shl(U(x), n)) }

  function Halves(x: int, n: nat): int
    decreases n
  {
    if n == 0 then x else Halves(x / 2, n - 1)
  }

  /** `x >> n`: halves, rounded down. */
  function JsSar(x: int, n: nat): int { Halves(Signed(U(x)), n) }

  function JsRotr(x: int, n: nat): int
    requires n <= 32
  {
    JsOr(JsShr(x, n), JsShl(x, 32 - n))
  }

  lemma Rotates(x: int, n: nat)
    requires n <= 32
    ensures U(JsRotr(x, n)) == Rotr(U(x), n)
  {
    hide Wise, Shr, Shl;
  }

  lemma Sums(x: int, y: int)
    ensures U(x + y) == Add(U(x), U(y)) && U(Or0(x)) == U(x)
  {
    var p, q := x / TWO_32, y / TWO_32;
    assert x == TWO_32 * p + U(x) && y == TWO_32 * q + U(y);
    var s := U(x) + U(y);
    var r := if s < TWO_32 then s else s - TWO_32;
    assert x + y == TWO_32 * (p + q) + s;
    assert U(x + y) == r;
  }

  // Padding.

  lemma PaddedLength(len: nat)
    requires len + 72 < 0x8000_0000
    ensures JsShl(JsSar(len + 8, 6) + 1, 6) == len + 1 + ZeroCount(len) + 8
  {
    hide Halves, Shl;
    var q := (len + 8) / 64;
    HalvesSix(len + 8);
    UIs(len + 8);
    assert JsSar(len + 8, 6) == q;
    UIs(q + 1);
    ShiftedSix(q + 1);
    BlocksOf(len);
  }

  lemma BlocksOf(len: nat)
    ensures len + 1 + ZeroCount(len) + 8 == 64 * ((len + 8) / 64) + 64
  {
    var m := len % 64;
    assert len == 64 * (len / 64) + m;
    if m < 56 {
      assert (119 - m) % 64 == 55 - m;
    }
  }

  lemma HalvesSix(x: nat)
    ensures Halves(x, 6) == x / 64
  {
    assert Halves(x, 6) == Halves(x / 2, 5) == Halves(x / 4, 4) by { assert x / 2 / 2 == x / 4; }
    assert Halves(x / 4, 4) == Halves(x / 8, 3) == Halves(x / 16, 2) by { assert x / 4 / 2 == x / 8 && x / 8 / 2 == x / 16; }
    assert Halves(x / 16, 2) == Halves(x / 32, 1) == Halves(x / 64, 0) by { assert x / 16 / 2 == x / 32 && x / 32 / 2 == x / 64; }
  }

  lemma ShiftedSix(x: u32)
    requires 64 * x < 0x8000_0000
    ensures Shl(x, 6) == 64 * x
  {
    hide Shl;
    ShiftOnce(x, 6);
    ShiftOnce(2 * x, 5);
    ShiftOnce(4 * x, 4);
    ShiftOnce(8 * x, 3);
    ShiftOnce(16 * x, 2);
    ShiftOnce(32 * x, 1);
  }

  lemma ShiftOnce(x: u32, n: nat)
    requires 2 * x < TWO_32 && n > 0
    ensures Shl(x, n) == Shl(2 * x, n - 1) && Shl(2 * x, 0) == 2 * x
  {
  }

  /** A length of 64 bits, written as two words. */
  lemma LengthWords(n: nat)
    requires n / TWO_32 < TWO_32
    ensures C.BigEndian(n, 8) == Bytes4(U(n / TWO_32)) + Bytes4(U(n))
  {
    var n1, n2, n3, n4 := n / 0x100, n / 0x1_0000, n / 0x100_0000, n / TWO_32;
    assert n1 / 0x100 == n2 && n2 / 0x100 == n3 && n3 / 0x100 == n4;
    BigEndian4(n4, n4);
    BigEndian4(n, U(n));
    assert C.BigEndian(n, 8) == C.BigEndian(n4, 4) + [n3 % 0x100, n2 % 0x100, n1 % 0x100, n % 0x100] by {
      assert C.BigEndian(n, 8) == C.BigEndian(n1, 7) + [n % 0x100];
      assert C.BigEndian(n1, 7) == C.BigEndian(n2, 6) + [n1 % 0x100];
      assert C.BigEndian(n2, 6) == C.BigEndian(n3, 5) + [n2 % 0x100];
      assert C.BigEndian(n3, 5) == C.BigEndian(n4, 4) + [n3 % 0x100];
    }
    assert C.BigEndian(n, 4) == [n3 % 0x100, n2 % 0x100, n1 % 0x100, n % 0x100] by { FourBytes(n); }
  }

  lemma FourBytes(n: nat)
    ensures C.BigEndian(n, 4) == [n / 0x100_0000 % 0x100, n / 0x1_0000 % 0x100, n / 0x100 % 0x100, n % 0x100]
  {
    var n1, n2, n3 := n / 0x100, n / 0x1_0000, n / 0x100_0000;
    assert n1 / 0x100 == n2 && n2 / 0x100 == n3;
    assert C.BigEndian(n3, 1) == [n3 % 0x100];
    assert C.BigEndian(n2, 2) == C.BigEndian(n3, 1) + [n2 % 0x100];
    assert C.BigEndian(n1, 3) == C.BigEndian(n2, 2) + [n1 % 0x100];
  }

  lemma ByteOff(t: nat, y: nat)
    ensures (0x100 * t + y) % 0x100 == y % 0x100 && (0x100 * t + y) / 0x100 == t + y / 0x100
  {
  }

  /** Four bytes hold a number's low word. */
  lemma BigEndian4(n: nat, low: nat)
    requires low == n % TWO_32
    ensures C.BigEndian(n, 4) == C.BigEndian(low, 4)
  {
    var q := n / TWO_32;
    var l1 := low / 0x100;
    var l2 := l1 / 0x100;
    var l3 := l2 / 0x100;
    assert n == 0x100 * (0x100_0000 * q) + low;
    ByteOff(0x100_0000 * q, low);
    ByteOff(0x1_0000 * q, l1);
    ByteOff(0x100 * q, l2);
    ByteOff(q, l3);
    FourSteps(n);
    FourSteps(low);
  }

  lemma FourSteps(n: nat)
    ensures C.BigEndian(n, 4) == [n / 0x100 / 0x100 / 0x100 % 0x100, n / 0x100 / 0x100 % 0x100, n / 0x100 % 0x100, n % 0x100]
  {
    FourBytes(n);
    assert n / 0x100 / 0x100 == n / 0x1_0000 && n / 0x1_0000 / 0x100 == n / 0x100_0000;
  }

  /** `setUint32`, big-endian. */
  method SetUint32(a: array<byte>, at: nat, value: int)
    requires at + 4 <= a.Length
    modifies a
    ensures a[..] == old(a[..at]) + Bytes4(U(value)) + old(a[at + 4..])
  {
    var raw := Bytes4(U(value));
    a[at], a[at + 1], a[at + 2], a[at + 3] := raw[0], raw[1], raw[2], raw[3];
    assert a[at..at + 4] == raw;
    assert a[..at] == old(a[..at]) && a[at + 4..] == old(a[at + 4..]);
    assert a[..] == a[..at] + a[at..at + 4] + a[at + 4..];
  }

  /** The data, its one bit, and room for the rest. */
  method Laid(data: seq<byte>, size: nat) returns (padded: array<byte>)
    requires |data| < size
    ensures fresh(padded) && padded[..] == data + [0x80] + Zeros(size - |data| - 1)
  {
    var len := |data|;
    padded := new byte[size](_ => 0);
    for i := 0 to len
      invariant padded[..i] == data[..i] && forall j | i <= j < size :: padded[j] == 0
    {
      padded[i] := data[i];
    }
    padded[len] := 0x80;
    assert padded[..len] == data && padded[len + 1..] == Zeros(size - len - 1);
    assert padded[..] == padded[..len] + [padded[len]] + padded[len + 1..];
  }

  method Pad(data: seq<byte>) returns (padded: array<byte>)
    requires |data| + 72 < 0x8000_0000
    ensures fresh(padded) && padded[..] == Padded(data)
  {
    hide C.BigEndian, Bytes4, JsShl, JsSar, U;
    var len := |data|;
    var bitLen := len * 8;
    PaddedLength(len);
    var size := JsShl(JsSar(len + 8, 6) + 1, 6);
    padded := Laid(data, size);
    ghost var front, lo, hi := data + [0x80] + Zeros(ZeroCount(len)), Bytes4(U(bitLen)), Bytes4(U(bitLen / TWO_32));
    ghost var p0 := padded[..];
    assert p0 == front + Zeros(8);
    SetUint32(padded, size - 4, bitLen);
    ghost var p1 := padded[..];
    SetUint32(padded, size - 8, bitLen / TWO_32);
    SetLast(front, lo, hi, p0, p1, padded[..], size);
    LengthWords(bitLen);
  }

  lemma SetLast(front: seq<byte>, lo: seq<byte>, hi: seq<byte>, p0: seq<byte>, p1: seq<byte>, p2: seq<byte>, size: nat)
    requires size == |front| + 8 && |lo| == |hi| == 4 && p0 == front + Zeros(8)
    requires p1 == p0[..size - 4] + lo + p0[size..] && p2 == p1[..size - 8] + hi + p1[size - 4..]
    ensures p2 == front + (hi + lo)
  {
    assert p0[size..] == [] && p1[size - 4..] == lo && p1[..size - 8] == front;
  }

  // A block.

  function JsSmall0(x: int): int { JsXor(JsXor(JsRotr(x, 7), JsRotr(x, 18)), JsShr(x, 3)) }

  function JsSmall1(x: int): int { JsXor(JsXor(JsRotr(x, 17), JsRotr(x, 19)), JsShr(x, 10)) }

  lemma SmallSigmasAre(x: int)
    ensures U(JsSmall0(x)) == SmallSigma0(U(x)) && U(JsSmall1(x)) == SmallSigma1(U(x))
  {
    hide Wise, Rotr, JsRotr, Shr;
    Rotates(x, 7);
    Rotates(x, 18);
    Rotates(x, 17);
    Rotates(x, 19);
  }

  /** A word of the message schedule, as a number. */
  function ScheduleSum(w15: u32, w2: u32, w16: u32, w7: u32): int {
    Or0(w16 + JsSmall0(w15) + w7 + JsSmall1(w2))
  }

  lemma ScheduleSumIs(w15: u32, w2: u32, w16: u32, w7: u32)
    ensures U(ScheduleSum(w15, w2, w16, w7)) == Add(Add(Add(SmallSigma1(w2), w7), SmallSigma0(w15)), w16)
  {
    hide JsSmall0, JsSmall1, SmallSigma0, SmallSigma1, Add, U;
    SmallSigmasAre(w15);
    SmallSigmasAre(w2);
    UIs(w15);
    UIs(w2);
    UIs(w16);
    UIs(w7);
    var s0, s1 := JsSmall0(w15), JsSmall1(w2);
    Sums(w16 + s0 + w7, s1);
    Sums(w16 + s0, w7);
    Sums(w16, s0);
    Sums(w16 + s0 + w7 + s1, 0);
    AddsAlike(w16, U(s0), w7, U(s1));
  }

  lemma UIs(u: u32)
    ensures U(u) == u
  {
  }

  /** Addition mod 2^32 in another order. */
  lemma AddsAlike(a: u32, b: u32, c: u32, d: u32)
    ensures Add(Add(Add(a, b), c), d) == Add(Add(Add(d, c), b), a)
  {
    hide Add;
    AddsFlat(a, b, c, d);
    AddsFlat(d, c, b, a);
    assert a + b + c + d == d + c + b + a;
  }

  lemma AddsFlat(a: u32, b: u32, c: u32, d: u32)
    ensures Add(Add(Add(a, b), c), d) == U(a + b + c + d)
  {
    hide Add, U;
    UIs(a);
    UIs(b);
    UIs(c);
    UIs(d);
    Sums(a, b);
    Sums(a + b, c);
    Sums(a + b + c, d);
  }

  method FillSchedule(w: array<u32>, padded: array<byte>, off: nat)
    requires w.Length == 64 && off + 64 <= padded.Length
    modifies w
    ensures w[..] == Schedule(padded[off..off + 64], 64)
  {
    hide ScheduleSum, SmallSigma0, SmallSigma1, Add;
    var block := padded[off..off + 64];
    for i := 0 to 16
      invariant w[..i] == Schedule(block, i)
    {
      assert block[4 * i..4 * i + 4] == padded[off + i * 4..off + i * 4 + 4];
      w[i] := Word(padded[off + i * 4..off + i * 4 + 4]);
      assert w[..i + 1] == w[..i] + [w[i]];
    }
    for i := 16 to 64
      invariant w[..i] == Schedule(block, i)
    {
      ScheduleSumIs(w[i - 15], w[i - 2], w[i - 16], w[i - 7]);
      assert w[..i][i - 2] == w[i - 2] && w[..i][i - 7] == w[i - 7] && w[..i][i - 15] == w[i - 15] && w[..i][i - 16] == w[i - 16];
      w[i] := U(ScheduleSum(w[i - 15], w[i - 2], w[i - 16], w[i - 7]));
      assert w[..i + 1] == w[..i] + [w[i]];
    }
    assert w[..64] == w[..];
  }

  /** The working variables, as numbers. */
  datatype Vars = Vars(a: int, b: int, c: int, d: int, e: int, f: int, g: int, hh: int)

  function Low(v: Vars): State {
    State(U(v.a), U(v.b), U(v.c), U(v.d), U(v.e), U(v.f), U(v.g), U(v.hh))
  }

  function JsSigma1(e: int): int { JsXor(JsXor(JsRotr(e, 6), JsRotr(e, 11)), JsRotr(e, 25)) }

  function JsSigma0(a: int): int { JsXor(JsXor(JsRotr(a, 2), JsRotr(a, 13)), JsRotr(a, 22)) }

  function JsCh(e: int, f: int, g: int): int { JsXor(JsAnd(e, f), JsAnd(JsNot(e), g)) }

  function JsMaj(a: int, b: int, c: int): int { JsXor(JsXor(JsAnd(a, b), JsAnd(a, c)), JsAnd(b, c)) }

  lemma SigmasAre(a: int, e: int)
    ensures U(JsSigma0(a)) == BigSigma0(U(a)) && U(JsSigma1(e)) == BigSigma1(U(e))
  {
    hide Wise, Rotr, JsRotr;
    Rotates(a, 2);
    Rotates(a, 13);
    Rotates(a, 22);
    Rotates(e, 6);
    Rotates(e, 11);
    Rotates(e, 25);
  }

  lemma ChoicesAre(x: int, y: int, z: int)
    ensures U(JsCh(x, y, z)) == Ch(U(x), U(y), U(z)) && U(JsMaj(x, y, z)) == Maj(U(x), U(y), U(z))
  {
    hide Wise;
  }

  /** The two sums of a round are the standard's, mod 2^32. */
  lemma SumsAre(v: Vars, k: u32, w: u32)
    ensures var s := Low(v);
      && U(v.hh + JsSigma1(v.e) + JsCh(v.e, v.f, v.g) + k + w) == Add(Add(Add(Add(s.h, BigSigma1(s.e)), Ch(s.e, s.f, s.g)), k), w)
      && U(JsSigma0(v.a) + JsMaj(v.a, v.b, v.c)) == Add(BigSigma0(s.a), Maj(s.a, s.b, s.c))
  {
    hide JsSigma0, JsSigma1, JsCh, JsMaj, BigSigma0, BigSigma1, Ch, Maj, Add, U;
    SigmasAre(v.a, v.e);
    ChoicesAre(v.e, v.f, v.g);
    ChoicesAre(v.a, v.b, v.c);
    UIs(k);
    UIs(w);
    var x, y := v.hh + JsSigma1(v.e), JsCh(v.e, v.f, v.g);
    Sums(v.hh, JsSigma1(v.e));
    Sums(x, y);
    Sums(x + y, k);
    Sums(x + y + k, w);
    Sums(JsSigma0(v.a), JsMaj(v.a, v.b, v.c));
  }

  method Work(start: State, w: array<u32>) returns (v: Vars)
    requires w.Length == 64
    ensures Low(v) == Rounds(start, w[..], 64)
  {
    hide JsSigma0, JsSigma1, JsCh, JsMaj, BigSigma0, BigSigma1, Ch, Maj, Add;
    var a, b, c, d, e, f, g, hh: int := start.a, start.b, start.c, start.d, start.e, start.f, start.g, start.h;
    for i := 0 to 64
      invariant Low(Vars(a, b, c, d, e, f, g, hh)) == Rounds(start, w[..], i)
    {
      var S1 := JsSigma1(e);
      var ch := JsCh(e, f, g);
      var t1 := Or0(hh + S1 + ch + K[i] + w[i]);
      var S0 := JsSigma0(a);
      var maj := JsMaj(a, b, c);
      var t2 := Or0(S0 + maj);
      SumsAre(Vars(a, b, c, d, e, f, g, hh), K[i], w[i]);
      Sums(d, t1);
      Sums(t1, t2);
      Sums(d + t1, 0);
      Sums(t1 + t2, 0);
      Sums(hh + S1 + ch + K[i] + w[i], 0);
      Sums(S0 + maj, 0);
      hh := g;
      g := f;
      f := e;
      e := Or0(d + t1);
      d := c;
      c := b;
      b := a;
      a := Or0(t1 + t2);
    }
    v := Vars(a, b, c, d, e, f, g, hh);
  }

  function StateOf(h: seq<u32>): State
    requires |h| == 8
  {
    State(h[0], h[1], h[2], h[3], h[4], h[5], h[6], h[7])
  }

  /** `h[i] = (h[i] + x) | 0` for each. */
  method AddInto(h: array<u32>, v: Vars)
    requires h.Length == 8
    modifies h
    ensures StateOf(h[..]) == Plus(StateOf(old(h[..])), Low(v))
  {
    hide Add;
    ghost var s := StateOf(h[..]);
    Added(h[0], v.a);
    Added(h[1], v.b);
    Added(h[2], v.c);
    Added(h[3], v.d);
    Added(h[4], v.e);
    Added(h[5], v.f);
    Added(h[6], v.g);
    Added(h[7], v.hh);
    h[0] := U(Or0(h[0] + v.a));
    h[1] := U(Or0(h[1] + v.b));
    h[2] := U(Or0(h[2] + v.c));
    h[3] := U(Or0(h[3] + v.d));
    h[4] := U(Or0(h[4] + v.e));
    h[5] := U(Or0(h[5] + v.f));
    h[6] := U(Or0(h[6] + v.g));
    h[7] := U(Or0(h[7] + v.hh));
  }

  lemma Added(h: u32, x: int)
    ensures U(Or0(h + x)) == Add(U(x), h)
  {
    Sums(h, x);
    Sums(h + x, 0);
  }

  /** Each block's schedule and rounds, added into the hash value. */
  method HashBlocks(h: array<u32>, padded: array<byte>)
    requires h.Length == 8 && StateOf(h[..]) == H0 && padded.Length % 64 == 0
    modifies h
    ensures StateOf(h[..]) == HashOf(padded[..])
  {
    hide Schedule, Rounds, Plus, StateOf, HashOf, Low;
    var w := new u32[64](_ => 0);
    var off := 0;
    NoBlock(padded[..0]);
    while off < padded.Length
      invariant off <= padded.Length && off % 64 == 0
      invariant StateOf(h[..]) == HashOf(padded[..off])
      decreases padded.Length - off
    {
      FillSchedule(w, padded, off);
      var v := Work(StateOf(h[..]), w);
      AddInto(h, v);
      OneBlock(padded[..], off);
      assert padded[..][..off] == padded[..off] && padded[..][..off + 64] == padded[..off + 64];
      assert padded[..][off..off + 64] == padded[off..off + 64];
      off := off + 64;
    }
    assert padded[..off] == padded[..];
  }

  lemma NoBlock(p: seq<byte>)
    requires p == []
    ensures HashOf(p) == H0
  {
  }

  lemma OneBlock(p: seq<byte>, off: nat)
    requires off + 64 <= |p|
    ensures HashOf(p[..off + 64]) == Compress(HashOf(p[..off]), p[off..off + 64])
  {
    hide Compress;
    var q := p[..off + 64];
    assert q[..off] == p[..off] && q[off..] == p[off..off + 64];
  }

  method Sha(data: seq<byte>) returns (out: seq<byte>)
    requires |data| + 72 < 0x8000_0000
    ensures out == Digest(data)
  {
    hide HashOf, Padded, C.BigEndian;
    var h := new u32[8] [0x6a09e667, 0xbb67ae85, 0x3c6ef372, 0xa54ff53a, 0x510e527f, 0x9b05688c, 0x1f83d9ab, 0x5be0cd19];
    assert StateOf(h[..]) == H0;
    var padded := Pad(data);
    HashBlocks(h, padded);
    out := [];
    for i := 0 to 8
      invariant out == Written(h[..], i)
    {
      out := out + Bytes4(h[i]);
    }
    WrittenAll(h[..]);
  }

  function Written(h: seq<u32>, n: nat): (raw: seq<byte>)
    requires n <= |h|
    ensures |raw| == 4 * n
  {
    if n == 0 then [] else Written(h, n - 1) + Bytes4(h[n - 1])
  }

  lemma WrittenAll(h: seq<u32>)
    requires |h| == 8
    ensures Written(h, 8) == Bytes4(h[0]) + Bytes4(h[1]) + Bytes4(h[2]) + Bytes4(h[3]) + Bytes4(h[4]) + Bytes4(h[5]) + Bytes4(h[6]) + Bytes4(h[7])
  {
    hide Bytes4;
    assert Written(h, 0) == [];
    assert Written(h, 2) == Bytes4(h[0]) + Bytes4(h[1]);
    assert Written(h, 4) == Bytes4(h[0]) + Bytes4(h[1]) + Bytes4(h[2]) + Bytes4(h[3]);
    assert Written(h, 6) == Bytes4(h[0]) + Bytes4(h[1]) + Bytes4(h[2]) + Bytes4(h[3]) + Bytes4(h[4]) + Bytes4(h[5]);
  }

  /** The padding is what section 5.1.1 asks: the message, a one bit, zeros, and the length in 64
      bits, on the fewest blocks that hold them. */
  lemma PaddingIsLeast(msg: seq<byte>)
    requires 8 * |msg| < C.TWO_64
    ensures var p := Padded(msg);
      && |p| % 64 == 0 && |msg| + 9 <= |p| < |msg| + 9 + 64
      && p[..|msg|] == msg && p[|msg|] == 0x80
      && (forall i | |msg| < i < |p| - 8 :: p[i] == 0)
      && C.FromBigEndian(p[|p| - 8..]) == 8 * |msg|
  {
    hide C.BigEndian, C.FromBigEndian, C.Pow256;
    var p := Padded(msg);
    CborLaws.PowWide();
    CborLaws.BigEndianReads(8 * |msg|, 8);
    assert p[|p| - 8..] == C.BigEndian(8 * |msg|, 8);
  }
}
