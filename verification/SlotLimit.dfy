/** How much a slot of ten bytes can hold: the decoder never reads more than fourteen characters
    out of one, and what it reads of a longer callsign. */
module SlotLimit {
  import opened Common
  import opened BitStrings
  import opened CoderSpec
  import opened CoderProofs
  import opened Coder

  /** What br_read_bit delivers over ten bytes. */
  const SLOT_STREAM: nat := 8 * 10 + READ_AHEAD - 1

  // ------------------------------------------------------------------ every symbol costs bits

  /** A symbol keeps barely more than a 38th of the interval. */
  lemma NarrowUpper(iv: Interval, sym: Symbol)
    requires iv.Settled()
    ensures Narrow(iv, sym).Width() * 37999 <= iv.Width() * 1000
  {
    SettledIsWide(iv);
  }

  /** Each bit read doubles the interval. */
  lemma {:induction false} RenormDoubles(d: Decoder, stream: seq<Bit>)
    requires d.Valid(stream) && DecoderRenorm(d, stream).Some?
    ensures var d' := DecoderRenorm(d, stream).value;
      d.pos <= d'.pos && d'.iv.Width() * Pow2(d.pos) == d.iv.Width() * Pow2(d'.pos)
    decreases |stream| - d.pos
  {
    if d.iv.Offset().Some? {
      var s, d' := DecoderShift(d, stream), DecoderRenorm(d, stream).value;
      RenormDoubles(s, stream);
      assert Pow2(s.pos) == 2 * Pow2(d.pos);
      HalfCancels(d'.iv.Width(), Pow2(d.pos), d.iv.Width(), Pow2(d'.pos));
    }
  }

  lemma HalfCancels(a: int, p: int, b: int, q: int)
    requires a * (2 * p) == 2 * b * q
    ensures a * p == b * q
  {
    assert a * (2 * p) == 2 * (a * p);
    assert 2 * b * q == 2 * (b * q);
  }

  /** The bits read pay for the `k` symbols found so far. */
  predicate Paid(d: Decoder, k: nat) {
    d.iv.Width() * Power(37999, k) <= Pow2(d.pos) * Power(1000, k)
  }

  lemma PaidStep(d: Decoder, sym: Symbol, stream: seq<Bit>, k: nat)
    requires d.Valid(stream) && d.iv.Settled() && Paid(d, k)
    requires d.(iv := Narrow(d.iv, sym)).Valid(stream) && DecoderRenorm(d.(iv := Narrow(d.iv, sym)), stream).Some?
    ensures Paid(DecoderRenorm(d.(iv := Narrow(d.iv, sym)), stream).value, k + 1)
  {
    var n := d.(iv := Narrow(d.iv, sym));
    NarrowUpper(d.iv, sym);
    RenormDoubles(n, stream);
    PaidOn(d, n.iv, DecoderRenorm(n, stream).value, k);
  }

  lemma PaidOn(d: Decoder, narrow: Interval, d': Decoder, k: nat)
    requires Paid(d, k) && narrow.Width() * 37999 <= d.iv.Width() * 1000
    requires d'.iv.Width() * Pow2(d.pos) == narrow.Width() * Pow2(d'.pos)
    ensures Paid(d', k + 1)
  {
    var a, b := Power(37999, k), Power(1000, k);
    PowerPositive(37999, k);
    PowerPositive(1000, k);
    PayForOne(d.iv.Width(), narrow.Width(), d'.iv.Width(), Pow2(d.pos), Pow2(d'.pos), a, b);
    assert Power(37999, k + 1) == 37999 * a && Power(1000, k + 1) == 1000 * b;
  }

  lemma {:induction false} PowerPositive(b: nat, n: nat)
    requires b > 0
    ensures Power(b, n) > 0
  {
    if n > 0 {
      PowerPositive(b, n - 1);
      ScaleMonotone(b, 1, Power(b, n - 1));
    }
  }

  /** `wide` to `narrow` by the symbol, to `next` by the bits read from 2^m up to 2^n. */
  lemma PayForOne(wide: int, narrow: int, next: int, m: int, n: int, a: int, b: int)
    requires narrow * 37999 <= wide * 1000 && next * m == narrow * n && m > 0 && n > 0 && a > 0 && b > 0
    requires wide * a <= m * b
    ensures next * (37999 * a) <= n * (1000 * b)
  {
    var l, r := next * (37999 * a), n * (1000 * b);
    assert l * m == narrow * 37999 * (a * n) by {
      assert l * m == next * m * (37999 * a) by { Swap(next, 37999 * a, m); }
      assert narrow * n * (37999 * a) == narrow * 37999 * (a * n) by { Swap4(narrow, n, 37999, a); }
    }
    assert narrow * 37999 * (a * n) <= wide * 1000 * (a * n) by { ScaleMonotone(a * n, narrow * 37999, wide * 1000); }
    assert wide * 1000 * (a * n) == wide * a * (1000 * n) by { Swap4(wide, 1000, a, n); }
    assert wide * a * (1000 * n) <= m * b * (1000 * n) by { ScaleMonotone(1000 * n, wide * a, m * b); }
    assert m * b * (1000 * n) == r * m by { Swap4(m, b, 1000, n); RightSide(m, n, b); }
    if l > r {
      Strict(m, r, l);
    }
  }

  lemma Strict(m: int, r: int, l: int)
    requires r < l && m > 0
    ensures r * m < l * m
  {
    assert l * m - r * m == (l - r) * m;
    assert (l - r) * m >= 1 * m by { ScaleMonotone(m, 1, l - r); }
  }

  lemma Swap(a: int, b: int, c: int)
    ensures a * b * c == a * c * b
  {
    assert a * b * c == a * (b * c);
    assert a * c * b == a * (c * b);
  }

  lemma Swap4(a: int, b: int, c: int, d: int)
    ensures a * b * (c * d) == a * c * (d * b)
  {
    assert a * b * (c * d) == a * (b * (c * d));
    assert b * (c * d) == c * (d * b) by {
      assert b * (c * d) == c * d * b;
      assert c * d * b == c * (d * b);
    }
    assert a * (c * (d * b)) == a * c * (d * b);
  }

  lemma RightSide(m: int, n: int, b: int)
    ensures m * 1000 * (n * b) == n * (1000 * b) * m
  {
    assert m * 1000 * (n * b) == m * (1000 * (n * b));
    assert 1000 * (n * b) == n * (1000 * b);
  }

  /** Fourteen symbols cost 72 bits beyond the 32 of the register. */
  lemma FourteenCost(d: Decoder, k: nat)
    requires d.iv.Settled() && Paid(d, k) && k == 14
    ensures d.pos >= 104
  {
    SettledIsWide(d.iv);
    FourteenIsDear();
    PowerPositive(37999, k);
    PowerPositive(1000, k);
    ScaleMonotone(Power(37999, k), QUARTER, d.iv.Width());
    PowOrder(d.pos, 103, Power(1000, k), QUARTER * Power(37999, k));
  }

  lemma PowOrder(m: nat, n: nat, b: nat, x: int)
    requires Pow2(n) * b < x <= Pow2(m) * b
    ensures m > n
  {
    if m <= n {
      PowMonotone(m, n);
      ScaleMonotone(b, Pow2(m), Pow2(n));
    }
  }

  lemma FourteenIsDear()
    ensures Pow2(103) * Power(1000, 14) < QUARTER * Power(37999, 14)
  {
    PowersOfFourteen();
    Pow32();
    PowAdd(30, 73);
    var b := Power(1000, 14);
    assert Pow2(103) * b == QUARTER * (Pow2(73) * b) by { Swap5(QUARTER, Pow2(73), b); }
  }

  lemma Swap5(a: int, b: int, c: int)
    ensures a * b * c == a * (b * c)
  {
  }

  lemma PowersOfFourteen()
    ensures Pow2(73) * Power(1000, 14) < Power(37999, 14)
  {
    PowerTable();
    PowerOf37999();
    Pow2Of73();
  }

  lemma PowerOf37999()
    ensures Power(37999, 14) == 13086103392194769831803931639143128969715590432865162723403468001
  {
    assert Power(37999, 3) == 54867668113999;
    assert Power(37999, 6) == 3010461004267942581659772001;
    assert Power(37999, 9) == 165176975252309600639112445473196016341999;
    assert Power(37999, 12) == 9062875458217949402867451636149601595074248255303544001;
  }

  lemma Pow2Of73()
    ensures Pow2(73) == 9444732965739290427392
  {
    Pow32();
    PowAdd(32, 32);
    PowAdd(64, 9);
    assert Pow2(9) == 512;
  }

  /** The decoder never takes more than fourteen symbols out of ten bytes. */
  lemma {:induction false} AtMostFourteen(d: Decoder, stream: seq<Bit>, cap: nat, out: seq<Symbol>)
    requires |stream| == SLOT_STREAM && d.Valid(stream) && d.iv.Settled() && Paid(d, |out|) && |out| <= 14
    ensures |DecodeFrom(d, stream, cap, out)| <= 14
    decreases |stream| - d.pos
  {
    PickSymbolFits(d);
    var sym := PickSymbol(d);
    if |out| == 14 {
      FourteenCost(d, |out|);
    } else if sym != EOF && |out| < cap {
      var next := DecoderRenorm(d.(iv := Narrow(d.iv, sym)), stream);
      if next.Some? {
        PaidStep(d, sym, stream, |out|);
        AtMostFourteen(next.value, stream, cap, out + [sym]);
      }
    }
  }

  lemma SlotHoldsFourteen(stream: seq<Bit>, cap: nat)
    requires |stream| == SLOT_STREAM
    ensures Decode(stream, cap).Some? && |Decode(stream, cap).value| <= 14
  {
    ValueBound(stream[..32]);
    Pow32();
    var d := Decoder(FULL, Value(stream[..32]), 32);
    assert Power(37999, 0) == 1 && Power(1000, 0) == 1;
    AtMostFourteen(d, stream, cap, []);
  }

  // ------------------------------------------------------------------ a callsign of fifteen characters

  /** The width a slice of width `w` at the bottom of the range has once settled, and the
      doublings that takes. */
  function Doubled(w: nat): (r: nat)
    requires w > 0
    ensures r > HALF
    decreases HALF - w
  {
    if w > HALF then w else Doubled(2 * w)
  }

  function Doublings(w: nat): nat
    requires w > 0
    decreases HALF - w
  {
    if w > HALF then 0 else 1 + Doublings(2 * w)
  }

  lemma {:induction false} DoubledBounds(w: nat)
    requires 0 < w <= MAX_CODE + 1
    ensures Doubled(w) <= MAX_CODE + 1
    decreases HALF - w
  {
    if w <= HALF {
      DoubledBounds(2 * w);
    }
  }

  /** The interval width after `j` symbols 'A' and the shifts made by then. */
  function WidthAfter(j: nat): (w: nat)
    ensures HALF < w <= MAX_CODE + 1
  {
    if j == 0 then MAX_CODE + 1
    else
      DoubledBounds(WidthAfter(j - 1) / 38);
      Doubled(WidthAfter(j - 1) / 38)
  }

  function ShiftsAfter(j: nat): nat {
    if j == 0 then 0 else ShiftsAfter(j - 1) + Doublings(WidthAfter(j - 1) / 38)
  }

  lemma {:induction false} DoublingsExact(w: nat, n: nat)
    requires HALF < w * Pow2(n) <= 2 * HALF
    ensures w > 0 && Doubled(w) == w * Pow2(n) && Doublings(w) == n
    decreases n
  {
    if n > 0 {
      assert w * Pow2(n) == 2 * w * Pow2(n - 1) by { Regroup(w, Pow2(n - 1)); }
      PositiveFactor(w, Pow2(n));
      ScaleMonotone(w, 1, Pow2(n - 1));
      DoublingsExact(2 * w, n - 1);
    }
  }

  lemma PositiveFactor(w: nat, p: nat)
    requires w * p > 0
    ensures w > 0
  {
  }

  lemma OneA(j: nat, w: nat, n: nat)
    requires WidthAfter(j) == w && n in {5, 6} && HALF < w / 38 * (if n == 5 then 32 else 64) <= 2 * HALF
    ensures WidthAfter(j + 1) == w / 38 * (if n == 5 then 32 else 64) && ShiftsAfter(j + 1) == ShiftsAfter(j) + n
  {
    assert Pow2(n) == if n == 5 then 32 else 64;
    DoublingsExact(w / 38, n);
  }

  lemma FirstFive(j: nat)
    requires WidthAfter(j) == 4294967296
    ensures WidthAfter(j + 5) == 3637657024 && ShiftsAfter(j + 5) == ShiftsAfter(j) + 26
  {
    OneA(j, 4294967296, 5);
    OneA(j + 1, 3616814560, 5);
    OneA(j + 2, 3045738560, 5);
    OneA(j + 3, 2564832448, 5);
    OneA(j + 4, 2159858880, 6);
  }

  lemma NextFive(j: nat)
    requires WidthAfter(j) == 3637657024
    ensures WidthAfter(j + 5) == 3080942784 && ShiftsAfter(j + 5) == ShiftsAfter(j) + 26
  {
    OneA(j, 3637657024, 5);
    OneA(j + 1, 3063290112, 5);
    OneA(j + 2, 2579612704, 5);
    OneA(j + 3, 2172305408, 6);
    OneA(j + 4, 3658619584, 5);
  }

  lemma ThreeMore(j: nat)
    requires WidthAfter(j) == 3080942784
    ensures WidthAfter(j + 3) == 3679702976 && ShiftsAfter(j + 3) == ShiftsAfter(j) + 16
  {
    OneA(j, 3080942784, 5);
    OneA(j + 1, 2594478112, 5);
    OneA(j + 2, 2184823648, 6);
  }

  lemma Thirteen(zero: nat)
    requires WidthAfter(zero) == MAX_CODE + 1 && ShiftsAfter(zero) == 0
    ensures WidthAfter(zero + 13) == 3679702976 && ShiftsAfter(zero + 13) == 68
  {
    FirstFive(zero);
    NextFive(zero + 5);
    ThreeMore(zero + 10);
  }

  lemma TwoMore(j: nat)
    requires WidthAfter(j) == 3679702976
    ensures ShiftsAfter(j + 1) == ShiftsAfter(j) + 5 && ShiftsAfter(j + 2) == ShiftsAfter(j) + 10
  {
    OneA(j, 3679702976, 5);
    OneA(j + 1, 3098697216, 5);
  }

  /** Shifts up to fifteen symbols, counted from `zero`. */
  lemma ShiftTable(zero: nat, j: nat)
    requires WidthAfter(zero) == MAX_CODE + 1 && ShiftsAfter(zero) == 0 && j <= zero + 15
    ensures j <= zero + 13 ==> ShiftsAfter(j) <= 68
    ensures j == zero + 14 ==> ShiftsAfter(j) == 73
    ensures j == zero + 15 ==> ShiftsAfter(j) == 78
  {
    Thirteen(zero);
    if j <= zero + 13 {
      ShiftsGrow(j, zero + 13);
    } else {
      TwoMore(zero + 13);
    }
  }

  lemma {:induction false} ShiftsGrow(i: nat, j: nat)
    requires i <= j
    ensures ShiftsAfter(i) <= ShiftsAfter(j)
  {
    if i < j {
      ShiftsGrow(i, j - 1);
    }
  }

  /** The first symbol of the alphabet. */
  const A: Symbol := 0

  function As(j: nat): (r: seq<Symbol>)
    ensures |r| == j && forall i :: 0 <= i < j ==> r[i] == A
  {
    seq(j, _ => A)
  }

  /** The encoder at the bottom of the range writes zeros only. */
  lemma {:induction false} EncoderStaysLow(w: nat, bits: seq<Bit>)
    requires 0 < w <= MAX_CODE + 1
    ensures EncoderRenorm(Encoder(Interval(0, w - 1), 0, bits))
         == Encoder(Interval(0, Doubled(w) - 1), 0, bits + Repeat(0, Doublings(w)))
    decreases HALF - w
  {
    var e := Encoder(Interval(0, w - 1), 0, bits);
    if w <= HALF {
      assert EncoderShift(e) == Encoder(Interval(0, 2 * w - 1), 0, bits + [0]);
      EncoderStaysLow(2 * w, bits + [0]);
      assert bits + [0] + Repeat(0, Doublings(2 * w)) == bits + Repeat(0, Doublings(w));
    } else {
      assert bits + Repeat(0, 0) == bits;
    }
  }

  lemma OneMoreA(e: Encoder, w: nat, s: nat)
    requires HALF < w <= MAX_CODE + 1 && e == Encoder(Interval(0, w - 1), 0, Repeat(0, s))
    ensures EncodeSymbol(e, A) == Encoder(Interval(0, Doubled(w / 38) - 1), 0, Repeat(0, s + Doublings(w / 38)))
  {
    assert Narrow(Interval(0, w - 1), A) == Interval(0, w / 38 - 1);
    EncoderStaysLow(w / 38, Repeat(0, s));
    assert Repeat(0, s) + Repeat(0, Doublings(w / 38)) == Repeat(0, s + Doublings(w / 38));
  }

  lemma {:induction false} EncodeAs(j: nat, w: nat, s: nat)
    requires w == WidthAfter(j) && s == ShiftsAfter(j)
    ensures EncodeSymbols(As(j)) == Encoder(Interval(0, w - 1), 0, Repeat(0, s))
  {
    if j == 0 {
      assert As(0) == [] && Repeat(0, 0) == [];
    } else {
      var w', s' := WidthAfter(j - 1), ShiftsAfter(j - 1);
      EncodeAs(j - 1, w', s');
      assert As(j) == As(j - 1) + [A];
      EncodeNextA(As(j - 1), w', s');
    }
  }

  lemma EncodeNextA(syms: seq<Symbol>, w: nat, s: nat)
    requires HALF < w <= MAX_CODE + 1
    requires EncodeSymbols(syms) == Encoder(Interval(0, w - 1), 0, Repeat(0, s))
    ensures EncodeSymbols(syms + [A])
         == Encoder(Interval(0, Doubled(w / 38) - 1), 0, Repeat(0, s + Doublings(w / 38)))
  {
    EncodeSnoc(syms, A);
    OneMoreA(EncodeSymbols(syms), w, s);
  }

  lemma FlushExtends(e: Encoder, sym: Symbol)
    requires e.iv.Settled()
    ensures e.bits <= Flush(EncodeSymbol(e, sym)) && |Flush(EncodeSymbol(e, sym))| >= |e.bits| + 2
  {
    RenormExtends(e.(iv := Narrow(e.iv, sym)));
  }

  /** The encoding of fifteen A starts with 78 zeros. */
  lemma FifteenAsAreZeros(j: nat)
    requires j == 15
    ensures Repeat(0, 78) <= EncodeBits(As(j)) && |EncodeBits(As(j))| >= 80
  {
    EncodeAs(j, WidthAfter(j), ShiftsAfter(j));
    ShiftTable(0, j);
    EncodeSnoc(As(j), EOF);
    FlushExtends(EncodeSymbols(As(j)), EOF);
  }

  /** All but the last bits of a register that has left the zeros are zeros. */
  predicate Low(d: Decoder, w: nat, stream: seq<Bit>) {
    d.Valid(stream) && w > 0 && d.iv == Interval(0, w - 1) && d.value < Pow2(if d.pos > 78 then d.pos - 78 else 0)
  }

  lemma {:induction false} DecoderStaysLow(d: Decoder, w: nat, stream: seq<Bit>)
    requires 0 < w <= MAX_CODE + 1 && Repeat(0, 78) <= stream && Low(d, w, stream)
    ensures match DecoderRenorm(d, stream)
      case None => d.pos + Doublings(w) > |stream|
      case Some(d') => d'.pos == d.pos + Doublings(w) <= |stream| && Low(d', Doubled(w), stream)
    decreases HALF - w
  {
    if w <= HALF && d.pos < |stream| {
      var s := DecoderShift(d, stream);
      assert s.value == 2 * d.value + stream[d.pos];
      assert d.pos < 78 ==> stream[d.pos] == Repeat(0, 78)[d.pos];
      DecoderStaysLow(s, 2 * w, stream);
    }
  }

  /** A settled register below 2^25 is in the first slice. */
  lemma LowPicksA(d: Decoder, w: nat, stream: seq<Bit>)
    requires HALF < w <= MAX_CODE + 1 && Low(d, w, stream) && d.pos <= SLOT_STREAM
    ensures d.iv.Settled() && PickSymbol(d) == A
    ensures Low(d.(iv := Narrow(d.iv, A)), w / 38, stream)
  {
    var k := if d.pos > 78 then d.pos - 78 else 0;
    PowMonotone(k, 25);
    assert Pow2(25) == 0x200_0000 by { PowAdd(5, 25); assert Pow2(5) == 32; Pow32(); }
    assert Narrow(Interval(0, w - 1), A) == Interval(0, w / 38 - 1);
    PickSymbolUnique(d, A);
  }

  /** One round of the decoder: an A, and the next state or the end of the stream. */
  lemma DecodeA(d: Decoder, w: nat, stream: seq<Bit>, out: seq<Symbol>)
    requires HALF < w <= MAX_CODE + 1 && Low(d, w, stream) && d.pos <= SLOT_STREAM
    requires Repeat(0, 78) <= stream && |out| < 15
    ensures d.iv.Settled()
    ensures d.pos + Doublings(w / 38) > |stream| ==> DecodeFrom(d, stream, 15, out) == out + [A]
    ensures d.pos + Doublings(w / 38) <= |stream| ==> exists d' ::
      && Low(d', Doubled(w / 38), stream) && d'.pos == d.pos + Doublings(w / 38) && d'.iv.Settled()
      && DecodeFrom(d, stream, 15, out) == DecodeFrom(d', stream, 15, out + [A])
  {
    LowPicksA(d, w, stream);
    var n := d.(iv := Narrow(d.iv, A));
    DecoderStaysLow(n, w / 38, stream);
    var next := DecoderRenorm(n, stream);
    if next.Some? {
      assert DecodeFrom(d, stream, 15, out) == DecodeFrom(next.value, stream, 15, out + [A]);
    }
  }

  /** What the next symbol does to the width and to the bits read, and whether they last. */
  lemma NextA(j: nat) returns (w: nat, n: nat, s: nat)
    requires j <= 13
    ensures w == WidthAfter(j) && n == Doublings(w / 38) && s == 32 + ShiftsAfter(j) <= SLOT_STREAM
    ensures WidthAfter(j + 1) == Doubled(w / 38) && 32 + ShiftsAfter(j + 1) == s + n
    ensures j < 13 <==> s + n <= SLOT_STREAM
  {
    w, s := WidthAfter(j), 32 + ShiftsAfter(j);
    n := Doublings(w / 38);
    ShiftTable(0, j);
    ShiftTable(0, j + 1);
  }

  lemma {:induction false} DecodeAs(d: Decoder, j: nat, stream: seq<Bit>, w: nat, s: nat)
    requires |stream| == SLOT_STREAM && Repeat(0, 78) <= stream && j <= 13
    requires w == WidthAfter(j) && s == 32 + ShiftsAfter(j) && Low(d, w, stream) && d.pos == s
    ensures d.iv.Settled() && DecodeFrom(d, stream, 15, As(j)) == As(14)
    decreases 13 - j
  {
    var _, n, _ := NextA(j);
    DecodeA(d, w, stream, As(j));
    assert As(j) + [A] == As(j + 1);
    if j < 13 {
      var d' :| Low(d', Doubled(w / 38), stream) && d'.pos == s + n && d'.iv.Settled()
        && DecodeFrom(d, stream, 15, As(j)) == DecodeFrom(d', stream, 15, As(j) + [A]);
      DecodeAs(d', j + 1, stream, Doubled(w / 38), s + n);
    }
  }

  /** Ten bytes that start with 78 zeros decode to fourteen A. */
  lemma ZerosDecode(stream: seq<Bit>)
    requires |stream| == SLOT_STREAM && Repeat(0, 78) <= stream
    ensures Decode(stream, 15) == Some(As(14))
  {
    assert stream[..32] == Repeat(0, 32);
    ValueRepeat(0, 32);
    Pow32();
    assert As(0) == [];
    DecodeAs(Decoder(FULL, 0, 32), 0, stream, MAX_CODE + 1, 32);
  }
}
