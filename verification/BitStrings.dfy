/** Bits, bytes and the numbers they spell: the vocabulary shared by the arithmetic
    coder and the frame builders. */
module BitStrings {

  type Bit = b: int | 0 <= b < 2

  function Pow2(n: nat): (r: nat)
    ensures r > 0
  {
    if n == 0 then 1 else 2 * Pow2(n - 1)
  }

  /** The number spelled by a bit string, most significant bit first. */
  function Value(s: seq<Bit>): nat {
    if s == [] then 0 else 2 * Value(s[..|s| - 1]) + s[|s| - 1]
  }

  function Repeat(b: Bit, n: nat): (r: seq<Bit>)
    ensures |r| == n && forall i :: 0 <= i < n ==> r[i] == b
  {
    seq(n, i => b)
  }

  lemma {:induction false} PowAdd(m: nat, n: nat)
    ensures Pow2(m + n) == Pow2(m) * Pow2(n)
  {
    if n > 0 {
      PowAdd(m, n - 1);
      assert Pow2(m + n) == 2 * Pow2(m + (n - 1));
    }
  }

  lemma {:induction false} PowMonotone(m: nat, n: nat)
    requires m <= n
    ensures Pow2(m) <= Pow2(n)
  {
    if m < n {
      PowMonotone(m, n - 1);
    }
  }

  lemma {:induction false} ValueConcat(s: seq<Bit>, t: seq<Bit>)
    ensures Value(s + t) == Value(s) * Pow2(|t|) + Value(t)
  {
    if t == [] {
      assert s + t == s;
    } else {
      var t' := t[..|t| - 1];
      assert (s + t)[..|s + t| - 1] == s + t';
      ValueConcat(s, t');
      var v, p := Value(s), Pow2(|t'|);
      assert Pow2(|t|) == 2 * p;
      DoubleFactor(v, p);
    }
  }

  lemma DoubleFactor(v: int, p: int)
    ensures v * (2 * p) == 2 * (v * p)
  {
  }

  lemma {:induction false} ValueRepeat(b: Bit, n: nat)
    ensures Value(Repeat(b, n)) == b * (Pow2(n) - 1)
  {
    if n > 0 {
      assert Repeat(b, n)[..n - 1] == Repeat(b, n - 1);
      ValueRepeat(b, n - 1);
    }
  }

  /** Extending a prefix by one bit doubles its value and adds the bit. */
  lemma ValuePrefixStep(s: seq<Bit>, n: nat)
    requires n < |s|
    ensures Value(s[..n + 1]) == 2 * Value(s[..n]) + s[n]
  {
    assert s[..n + 1][..n] == s[..n];
  }

  lemma {:induction false} ValueBound(s: seq<Bit>)
    ensures Value(s) < Pow2(|s|)
  {
    if s != [] {
      ValueBound(s[..|s| - 1]);
    }
  }

  lemma Pow32()
    ensures Pow2(32) == 0x1_0000_0000 && Pow2(30) == 0x4000_0000
  {
    assert Pow2(8) == 256 by { assert Pow2(4) == 16; }
    assert Pow2(16) == 65536 by { PowAdd(8, 8); }
    PowAdd(16, 16);
    assert Pow2(32) == 2 * Pow2(31);
    assert Pow2(31) == 2 * Pow2(30);
  }

  /** The mask 1 << (7 - k) that selects bit k of a byte, most significant bit first. */
  function Mask(k: nat): bv8
    requires k < 8
  {
    match k
    case 0 => 0x80
    case 1 => 0x40
    case 2 => 0x20
    case 3 => 0x10
    case 4 => 0x08
    case 5 => 0x04
    case 6 => 0x02
    case _ => 0x01
  }

  /** Bit number i of a byte string, most significant bit of the first byte first. */
  function BitAt(s: seq<bv8>, i: nat): Bit
    requires i < 8 * |s|
  {
    if s[i / 8] & Mask(i % 8) != 0 then 1 else 0
  }

  function BitsOf(s: seq<bv8>): (r: seq<Bit>)
    ensures |r| == 8 * |s|
    ensures forall i :: 0 <= i < |r| ==> r[i] == BitAt(s, i)
  {
    seq(8 * |s|, i requires 0 <= i < 8 * |s| => BitAt(s, i))
  }

  /** ORing a mask into a byte sets that bit and changes no other. */
  lemma OrSetsOneBit(b: bv8, k: nat, j: nat)
    requires k < 8 && j < 8
    ensures ((b | Mask(k)) & Mask(j) != 0) == (j == k || b & Mask(j) != 0)
  {
  }
}
