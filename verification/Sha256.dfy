/**
 SHA-256 as FIPS 180-4 defines it: its word functions (section 4.1.2), its padding (section
 5.1.1), its constants (sections 4.2.2 and 5.3.3) and its computation (section 6.2.2).
 */
module Sha256 {
  import opened Bitwise
  import opened Bytes
  import C = Cbors

  const TWO_32 := 0x1_0000_0000

  // Words.

  function Wise(g: Gate, a: u32, b: u32): u32 {
    Pow2Of32();
    Bits(g, a, b, 32)
  }

  function Not(a: u32): u32 {
    TWO_32 - 1 - a
  }

  function Add(a: u32, b: u32): u32 {
    (a + b) % TWO_32
  }

  function Shr(x: u32, n: nat): u32
    decreases n
  {
    if n == 0 then x else Shr(x / 2, n - 1)
  }

  function Shl(x: u32, n: nat): u32
    decreases n
  {
    if n == 0 then x else Shl(2 * x % TWO_32, n - 1)
  }

  function Rotr(x: u32, n: nat): u32
    requires n <= 32
  {
    Wise(Or, Shr(x, n), Shl(x, 32 - n))
  }

  function Ch(x: u32, y: u32, z: u32): u32 { Wise(Xor, Wise(And, x, y), Wise(And, Not(x), z)) }

  function Maj(x: u32, y: u32, z: u32): u32 { Wise(Xor, Wise(Xor, Wise(And, x, y), Wise(And, x, z)), Wise(And, y, z)) }

  function BigSigma0(x: u32): u32 { Wise(Xor, Wise(Xor, Rotr(x, 2), Rotr(x, 13)), Rotr(x, 22)) }

  function BigSigma1(x: u32): u32 { Wise(Xor, Wise(Xor, Rotr(x, 6), Rotr(x, 11)), Rotr(x, 25)) }

  function SmallSigma0(x: u32): u32 { Wise(Xor, Wise(Xor, Rotr(x, 7), Rotr(x, 18)), Shr(x, 3)) }

  function SmallSigma1(x: u32): u32 { Wise(Xor, Wise(Xor, Rotr(x, 17), Rotr(x, 19)), Shr(x, 10)) }

  const K: seq<u32> := [
    0x428a2f98, 0x71374491, 0xb5c0fbcf, 0xe9b5dba5, 0x3956c25b, 0x59f111f1, 0x923f82a4, 0xab1c5ed5,
    0xd807aa98, 0x12835b01, 0x243185be, 0x550c7dc3, 0x72be5d74, 0x80deb1fe, 0x9bdc06a7, 0xc19bf174,
    0xe49b69c1, 0xefbe4786, 0x0fc19dc6, 0x240ca1cc, 0x2de92c6f, 0x4a7484aa, 0x5cb0a9dc, 0x76f988da,
    0x983e5152, 0xa831c66d, 0xb00327c8, 0xbf597fc7, 0xc6e00bf3, 0xd5a79147, 0x06ca6351, 0x14292967,
    0x27b70a85, 0x2e1b2138, 0x4d2c6dfc, 0x53380d13, 0x650a7354, 0x766a0abb, 0x81c2c92e, 0x92722c85,
    0xa2bfe8a1, 0xa81a664b, 0xc24b8b70, 0xc76c51a3, 0xd192e819, 0xd6990624, 0xf40e3585, 0x106aa070,
    0x19a4c116, 0x1e376c08, 0x2748774c, 0x34b0bcb5, 0x391c0cb3, 0x4ed8aa4a, 0x5b9cca4f, 0x682e6ff3,
    0x748f82ee, 0x78a5636f, 0x84c87814, 0x8cc70208, 0x90befffa, 0xa4506ceb, 0xbef9a3f7, 0xc67178f2]

  /** The hash value, and the eight working variables. */
  datatype State = State(a: u32, b: u32, c: u32, d: u32, e: u32, f: u32, g: u32, h: u32)

  const H0 := State(0x6a09e667, 0xbb67ae85, 0x3c6ef372, 0xa54ff53a, 0x510e527f, 0x9b05688c, 0x1f83d9ab, 0x5be0cd19)

  // Padding.

  function Zeros(n: nat): (z: seq<byte>)
    ensures |z| == n
  {
    seq(n, _ => 0)
  }

  /** The least count of zeros that fills the last block. */
  function ZeroCount(len: nat): (k: nat)
    ensures (len + 1 + k + 8) % 64 == 0 && k < 64
  {
    (119 - len % 64) % 64
  }

  function Padded(msg: seq<byte>): (p: seq<byte>)
    ensures |p| % 64 == 0
  {
    msg + [0x80] + Zeros(ZeroCount(|msg|)) + C.BigEndian(8 * |msg|, 8)
  }

  // The computation.

  function Word(raw: seq<byte>): (w: u32)
    requires |raw| == 4
  {
    C.FromBigEndian4(raw);
    C.FromBigEndian(raw)
  }

  /** The first `n` words of a block's message schedule. */
  function Schedule(block: seq<byte>, n: nat): (w: seq<u32>)
    requires |block| == 64 && n <= 64
    ensures |w| == n
  {
    if n == 0 then []
    else
      var w, t := Schedule(block, n - 1), n - 1;
      w + [if t < 16 then Word(block[4 * t..4 * t + 4])
           else Add(Add(Add(SmallSigma1(w[t - 2]), w[t - 7]), SmallSigma0(w[t - 15])), w[t - 16])]
  }

  function Round(s: State, k: u32, w: u32): State {
    var t1 := Add(Add(Add(Add(s.h, BigSigma1(s.e)), Ch(s.e, s.f, s.g)), k), w);
    var t2 := Add(BigSigma0(s.a), Maj(s.a, s.b, s.c));
    State(Add(t1, t2), s.a, s.b, s.c, Add(s.d, t1), s.e, s.f, s.g)
  }

  function Rounds(s: State, w: seq<u32>, n: nat): State
    requires |w| == 64 && n <= 64
  {
    if n == 0 then s else Round(Rounds(s, w, n - 1), K[n - 1], w[n - 1])
  }

  function Plus(s: State, t: State): State {
    State(Add(t.a, s.a), Add(t.b, s.b), Add(t.c, s.c), Add(t.d, s.d), Add(t.e, s.e), Add(t.f, s.f), Add(t.g, s.g), Add(t.h, s.h))
  }

  function Compress(s: State, block: seq<byte>): State
    requires |block| == 64
  {
    Plus(s, Rounds(s, Schedule(block, 64), 64))
  }

  /** The hash value after each 64-byte block. */
  function HashOf(blocks: seq<byte>): State {
    if |blocks| < 64 then H0
    else
      var n := |blocks| - 64;
      Compress(HashOf(blocks[..n]), blocks[n..])
  }

  function Bytes4(w: u32): (raw: seq<byte>)
    ensures |raw| == 4
  {
    C.BigEndian(w, 4)
  }

  function Digest(msg: seq<byte>): seq<byte> {
    var s := HashOf(Padded(msg));
    Bytes4(s.a) + Bytes4(s.b) + Bytes4(s.c) + Bytes4(s.d) + Bytes4(s.e) + Bytes4(s.f) + Bytes4(s.g) + Bytes4(s.h)
  }
}
