/** Strings: hex, the NUL-separated keys of chains and zones, and their order. */
module Text {
  import opened Bytes

  const NUL := '\0'

  predicate NoNul(s: string) { NUL !in s }

  function Digit(n: int): char
    requires 0 <= n < 16
  {
    if n < 10 then '0' + n as char else 'a' + (n - 10) as char
  }

  /** Two lower-case digits a byte. */
  function Hex(b: seq<byte>): (s: string)
    ensures |s| == 2 * |b| && NoNul(s)
  {
    if b == [] then "" else [Digit(b[0] / 16), Digit(b[0] % 16)] + Hex(b[1..])
  }

  lemma {:induction false} HexInjective(a: seq<byte>, b: seq<byte>)
    requires Hex(a) == Hex(b)
    ensures a == b
  {
    if a != [] {
      assert Hex(a)[2..] == Hex(a[1..]) && Hex(b)[2..] == Hex(b[1..]);
      HexInjective(a[1..], b[1..]);
      DigitInjective(a[0] / 16, b[0] / 16);
      DigitInjective(a[0] % 16, b[0] % 16);
      assert a == [a[0]] + a[1..] && b == [b[0]] + b[1..];
    }
  }

  lemma DigitInjective(m: int, n: int)
    requires 0 <= m < 16 && 0 <= n < 16
    ensures Digit(m) == Digit(n) ==> m == n
  {
  }

  /** Text up to its first NUL is read back from whatever follows. */
  lemma NulEnds(a: string, x: string, b: string, y: string)
    requires NoNul(a) && NoNul(b) && a + [NUL] + x <= b + [NUL] + y
    ensures a == b && x <= y
  {
    var l, r := a + [NUL] + x, b + [NUL] + y;
    assert l[|a|] == NUL && l[|a|] == r[|a|] && r[|b|] == NUL;
    assert forall i | 0 <= i < |a| :: l[i] == a[i] && a[i] != NUL && l[i] == r[i];
    assert forall i | 0 <= i < |b| :: r[i] == b[i] && b[i] != NUL;
    assert a == l[..|a|] && b == r[..|b|];
    assert x == l[|a| + 1..] && y == r[|b| + 1..];
  }

  /** What a zone's chain keys begin with. */
  function ZonePrefix(share: string, gladeId: string, key: seq<byte>): string {
    share + [NUL] + (gladeId + [NUL] + (Hex(key) + [NUL]))
  }

  function ChainKey(share: string, gladeId: string, key: seq<byte>, origin: string): string {
    share + [NUL] + (gladeId + [NUL] + (Hex(key) + [NUL] + origin))
  }

  /** With no NUL in a share or a stream, a zone's prefix begins its own chains' keys and no
      other's, and a chain's key names the chain. An origin may hold anything. */
  lemma KeysNameChains(s1: string, g1: string, k1: seq<byte>, o1: string, s2: string, g2: string, k2: seq<byte>, o2: string)
    requires NoNul(s1) && NoNul(g1) && NoNul(s2) && NoNul(g2)
    ensures ZonePrefix(s1, g1, k1) <= ChainKey(s2, g2, k2, o2) <==> s1 == s2 && g1 == g2 && k1 == k2
    ensures ChainKey(s1, g1, k1, o1) == ChainKey(s2, g2, k2, o2) <==> s1 == s2 && g1 == g2 && k1 == k2 && o1 == o2
    ensures s1 + [NUL] <= ChainKey(s2, g2, k2, o2) <==> s1 == s2
  {
    hide Hex;
    var r3 := Hex(k2) + [NUL] + o2;
    var r2 := g2 + [NUL] + r3;
    assert ChainKey(s2, g2, k2, o2) == s2 + [NUL] + r2;
    if s1 + [NUL] <= ChainKey(s2, g2, k2, o2) {
      assert s1 + [NUL] == s1 + [NUL] + [];
      NulEnds(s1, [], s2, r2);
    }
    if ZonePrefix(s1, g1, k1) <= ChainKey(s2, g2, k2, o2) {
      NulEnds(s1, g1 + [NUL] + (Hex(k1) + [NUL]), s2, r2);
      NulEnds(g1, Hex(k1) + [NUL], g2, r3);
      assert Hex(k1) + [NUL] == Hex(k1) + [NUL] + [];
      NulEnds(Hex(k1), [], Hex(k2), o2);
      HexInjective(k1, k2);
    }
    if ChainKey(s1, g1, k1, o1) == ChainKey(s2, g2, k2, o2) {
      var l3 := Hex(k1) + [NUL] + o1;
      NulEnds(s1, g1 + [NUL] + l3, s2, r2);
      NulEnds(g1, l3, g2, r3);
      NulEnds(Hex(k1), o1, Hex(k2), o2);
      HexInjective(k1, k2);
      NulEnds(s2, r2, s1, g1 + [NUL] + l3);
      NulEnds(g2, r3, g1, l3);
      NulEnds(Hex(k2), o2, Hex(k1), o1);
    }
    if s1 == s2 && g1 == g2 && k1 == k2 {
      PrefixOfOwn(s1, g1, k1, o2);
    }
    assert s2 + [NUL] <= ChainKey(s2, g2, k2, o2);
  }

  lemma PrefixOfOwn(s: string, g: string, k: seq<byte>, o: string)
    ensures ChainKey(s, g, k, o) == ZonePrefix(s, g, k) + o
  {
    hide Hex;
    assert s + [NUL] + (g + [NUL] + (Hex(k) + [NUL] + o)) == s + [NUL] + (g + [NUL] + (Hex(k) + [NUL])) + o;
  }

  /** Lexicographic order, shorter first. */
  predicate Before(a: string, b: string) {
    b != "" && (a == "" || a[0] < b[0] || (a[0] == b[0] && Before(a[1..], b[1..])))
  }

  /** A strict total order. */
  lemma {:induction false} BeforeTotal(a: string, b: string)
    ensures a == b || Before(a, b) || Before(b, a)
    ensures Before(a, b) ==> a != b && !Before(b, a)
  {
    if a != "" && b != "" && a[0] == b[0] {
      BeforeTotal(a[1..], b[1..]);
      if a[1..] == b[1..] {
        assert a == [a[0]] + a[1..] && b == [b[0]] + b[1..];
      }
    }
  }

  lemma {:induction false} BeforeTransitive(a: string, b: string, c: string)
    requires Before(a, b) && Before(b, c)
    ensures Before(a, c)
  {
    if a != "" && a[0] == b[0] && b[0] == c[0] {
      BeforeTransitive(a[1..], b[1..], c[1..]);
    }
  }

  /** A number in decimal. */
  function Decimal(n: int): (s: string)
    decreases n < 0, if n < 0 then -n else n
  {
    if n < 0 then "-" + Decimal(-n)
    else if n < 10 then [Digit(n)]
    else Decimal(n / 10) + [Digit(n % 10)]
  }

  lemma {:induction false} DecimalInjective(m: nat, n: nat)
    requires Decimal(m) == Decimal(n)
    ensures m == n
  {
    DecimalLast(m);
    DecimalLast(n);
    DigitInjective(m % 10, n % 10);
    if m >= 10 && n >= 10 {
      assert Decimal(m)[..|Decimal(m)| - 1] == Decimal(m / 10);
      assert Decimal(n)[..|Decimal(n)| - 1] == Decimal(n / 10);
      DecimalInjective(m / 10, n / 10);
    }
  }

  lemma {:induction false} DecimalLast(n: nat)
    ensures |Decimal(n)| >= 1 && Decimal(n)[|Decimal(n)| - 1] == Digit(n % 10)
    ensures n < 10 <==> |Decimal(n)| == 1
  {
    if n >= 10 {
      DecimalLast(n / 10);
    }
  }
}
