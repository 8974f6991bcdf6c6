/** Gates over numbers, bit by bit. */
module Bitwise {
  datatype Gate = And | Or | Xor

  function Bit(g: Gate, a: nat, b: nat): (r: nat)
    requires a < 2 && b < 2
    ensures r < 2
  {
    match g case And => a * b case Or => a + b - a * b case Xor => (a + b) % 2
  }

  /** A gate over each of the `bits` low bits. */
  function Bits(g: Gate, a: nat, b: nat, bits: nat): (r: nat)
    ensures r < Pow2(bits)
    decreases bits
  {
    if bits == 0 then 0 else 2 * Bits(g, a / 2, b / 2, bits - 1) + Bit(g, a % 2, b % 2)
  }

  function Pow2(n: nat): (r: nat)
    ensures r > 0
  {
    if n == 0 then 1 else 2 * Pow2(n - 1)
  }

  lemma Pow2Of8()
    ensures Pow2(8) == 0x100
  {
    assert Pow2(4) == 16;
  }

  lemma Pow2Of32()
    ensures Pow2(32) == 0x1_0000_0000
  {
    assert Pow2(8) == 0x100;
    assert Pow2(16) == 0x1_0000;
    assert Pow2(24) == 0x100_0000;
  }

  /** Exclusive or with the same number twice changes nothing. */
  lemma {:induction false} XorTwice(a: nat, k: nat, bits: nat)
    requires a < Pow2(bits)
    ensures Bits(Xor, Bits(Xor, a, k, bits), k, bits) == a
    decreases bits
  {
    if bits > 0 {
      XorTwice(a / 2, k / 2, bits - 1);
      XorBit(a, k, Bits(Xor, a / 2, k / 2, bits - 1));
    }
  }

  /** The last bit comes back, and the others are where they were. */
  lemma XorBit(a: nat, k: nat, q: nat)
    ensures var r := 2 * q + (a % 2 + k % 2) % 2;
      r / 2 == q && (r % 2 + k % 2) % 2 == a % 2 && 2 * (a / 2) + a % 2 == a
  {
  }
}
