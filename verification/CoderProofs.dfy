/** The decoder undoes the encoder, whatever follows the encoded bits. */
module CoderProofs {
  import opened Common
  import opened BitStrings
  import opened CoderSpec

  /** Everything renormalisation has subtracted from the interval so far, at the current
      scale: the bits written, and a half for each pending underflow. */
  function Base(e: Encoder): int {
    Pow2(32 + e.pending) * Value(e.bits) + HALF * (Pow2(e.pending) - 1)
  }

  lemma BaseShift(e: Encoder)
    requires e.iv.Valid() && e.iv.Offset().Some?
    ensures Base(EncoderShift(e)) == 2 * (Base(e) + e.iv.Offset().value)
    ensures Shifts(EncoderShift(e)) == Shifts(e) + 1
  {
    var off := e.iv.Offset().value;
    BaseScaled(e);
    BaseScaled(EncoderShift(e));
    if off != QUARTER {
      EmitValue(e.bits, if off == 0 then 0 else 1, e.pending);
    }
  }

  lemma ScaleAssoc(a: int, b: int, c: int)
    ensures a * b * c == a * (b * c)
  {
  }

  lemma Distribute(v: int, b: int, w: int)
    ensures (2 * v + b) * w == 2 * (w * v) + b * w
  {
  }

  /** The 32-bit window of `t` that the decoder holds when the encoder is at `e`. */
  function Register(e: Encoder, t: seq<Bit>): int
    requires Shifts(e) + 32 <= |t|
  {
    Value(t[..Shifts(e) + 32]) - Base(e)
  }

  predicate Contains(e: Encoder, t: seq<Bit>) {
    e.iv.Valid() && Shifts(e) + 32 <= |t| && e.iv.low <= Register(e, t) <= e.iv.high
  }

  lemma RegisterShift(e: Encoder, t: seq<Bit>)
    requires e.iv.Valid() && e.iv.Offset().Some? && Shifts(e) + 33 <= |t|
    ensures Shifts(EncoderShift(e)) == Shifts(e) + 1
    ensures Register(EncoderShift(e), t) == 2 * (Register(e, t) - e.iv.Offset().value) + t[Shifts(e) + 32]
  {
    BaseShift(e);
    ValuePrefixStep(t, Shifts(e) + 32);
  }

  /** Shifting loses no stream: what the shifted interval contains, the interval contained. */
  lemma {:induction false} RenormContains(e: Encoder, t: seq<Bit>)
    requires e.iv.Valid() && Contains(EncoderRenorm(e), t)
    ensures Contains(e, t) && Shifts(e) <= Shifts(EncoderRenorm(e))
    decreases MAX_CODE + 1 - e.iv.Width()
  {
    if e.iv.Offset().Some? {
      RenormContains(EncoderShift(e), t);
      BaseShift(e);
      RegisterShift(e, t);
    }
  }

  lemma SymbolContains(e: Encoder, sym: Symbol, t: seq<Bit>)
    requires e.iv.Settled() && Contains(EncodeSymbol(e, sym), t)
    ensures Contains(e.(iv := Narrow(e.iv, sym)), t) && Contains(e, t)
  {
    RenormContains(e.(iv := Narrow(e.iv, sym)), t);
    assert Register(e.(iv := Narrow(e.iv, sym)), t) == Register(e, t);
  }

  lemma {:induction false} PrefixContains(syms: seq<Symbol>, i: nat, t: seq<Bit>)
    requires i <= |syms| && Contains(EncodeSymbols(syms), t)
    ensures Contains(EncodeSymbols(syms[..i]), t)
    decreases |syms|
  {
    if i == |syms| {
      assert syms[..i] == syms;
    } else {
      var front := syms[..|syms| - 1];
      SymbolContains(EncodeSymbols(front), syms[|syms| - 1], t);
      PrefixContains(front, i, t);
      assert front[..i] == syms[..i];
    }
  }

  /** The flushed bits point a quarter or a half past the base. */
  lemma FlushValue(e: Encoder)
    requires e.iv.Settled()
    ensures |Flush(e)| == Shifts(e) + 2
    ensures Value(Flush(e)) * Pow2(30) == Base(e) + if e.iv.low < QUARTER then QUARTER else HALF
  {
    var b: Bit := if e.iv.low < QUARTER then 0 else 1;
    EmitValue(e.bits, b, e.pending + 1);
    BaseScaled(e);
    Pow32();
  }

  /** What emitting one bit and its pending complements does to the number written. */
  lemma EmitValue(bits: seq<Bit>, b: Bit, p: nat)
    ensures |Emit(bits, b, p)| == |bits| + 1 + p
    ensures Value(Emit(bits, b, p)) == 2 * (Pow2(p) * Value(bits)) + if b == 0 then Pow2(p) - 1 else Pow2(p)
  {
    ValueConcat(bits + [b], Repeat(1 - b, p));
    ValueRepeat(1 - b, p);
    assert (bits + [b])[..|bits|] == bits;
    assert Value(bits + [b]) == 2 * Value(bits) + b;
    Distribute(Value(bits), b, Pow2(p));
  }

  lemma BaseScaled(e: Encoder)
    ensures Base(e) == 0x1_0000_0000 * (Pow2(e.pending) * Value(e.bits)) + HALF * (Pow2(e.pending) - 1)
    ensures Pow2(e.pending + 1) * Value(e.bits) == 2 * (Pow2(e.pending) * Value(e.bits))
  {
    PowAdd(32, e.pending);
    Pow32();
    ScaleAssoc(0x1_0000_0000, Pow2(e.pending), Value(e.bits));
    ScaleAssoc(2, Pow2(e.pending), Value(e.bits));
  }

  /** Whatever follows the flushed bits, the register ends inside the last interval. */
  lemma FlushContains(e: Encoder, t: seq<Bit>)
    requires e.iv.Settled() && Shifts(e) + 32 <= |t|
    requires Flush(e) <= t
    ensures Contains(e, t)
  {
    FlushValue(e);
    var f, n := Flush(e), Shifts(e) + 2;
    var rest := t[n..n + 30];
    assert t[..n + 30] == f + rest;
    ValueConcat(f, rest);
    ValueBound(rest);
    Pow32();
  }

  // ------------------------------------------------------------------ how far a symbol shifts

  lemma {:induction false} RenormWidth(e: Encoder)
    requires e.iv.Valid()
    ensures Shifts(e) <= Shifts(EncoderRenorm(e))
    ensures EncoderRenorm(e).iv.Width() == e.iv.Width() * Pow2(Shifts(EncoderRenorm(e)) - Shifts(e))
    decreases MAX_CODE + 1 - e.iv.Width()
  {
    if e.iv.Offset().Some? {
      var s := EncoderShift(e);
      BaseShift(e);
      RenormWidth(s);
      var k := Shifts(EncoderRenorm(e)) - Shifts(e);
      assert Pow2(k) == 2 * Pow2(k - 1);
      assert s.iv.Width() * Pow2(k - 1) == e.iv.Width() * Pow2(k) by { Regroup(e.iv.Width(), Pow2(k - 1)); }
    }
  }

  lemma Regroup(a: int, b: int)
    ensures 2 * a * b == a * (2 * b) == 2 * (a * b)
  {
  }

  /** Every symbol forces at least four shifts. */
  lemma SymbolShifts(e: Encoder, sym: Symbol)
    requires e.iv.Settled()
    ensures Shifts(EncodeSymbol(e, sym)) >= Shifts(e) + 4
  {
    var n := e.(iv := Narrow(e.iv, sym));
    RenormWidth(n);
    SettledIsWide(EncodeSymbol(e, sym).iv);
    var k := Shifts(EncodeSymbol(e, sym)) - Shifts(e);
    assert n.iv.Width() <= 0x1_0000_0000 / 38 + 1;
    if k < 4 {
      PowMonotone(k, 3);
      assert Pow2(3) == 8;
      ScaleMonotone(n.iv.Width(), Pow2(k), 8);
    }
  }

  lemma {:induction false} PrefixShifts(syms: seq<Symbol>, i: nat)
    requires i <= |syms|
    ensures Shifts(EncodeSymbols(syms)) >= Shifts(EncodeSymbols(syms[..i])) + 4 * (|syms| - i)
    decreases |syms|
  {
    if i == |syms| {
      assert syms[..i] == syms;
    } else {
      var front := syms[..|syms| - 1];
      SymbolShifts(EncodeSymbols(front), syms[|syms| - 1]);
      PrefixShifts(front, i);
      assert front[..i] == syms[..i];
    }
  }

  function Power(b: nat, n: nat): nat {
    if n == 0 then 1 else b * Power(b, n - 1)
  }

  /** Each symbol costs barely more than a factor 38 of interval width. */
  lemma {:induction false} WidthBudget(syms: seq<Symbol>)
    ensures EncodeSymbols(syms).iv.Width() * Power(38001, |syms|)
         >= 0x1_0000_0000 * (Pow2(Shifts(EncodeSymbols(syms))) * Power(1000, |syms|))
  {
    if syms != [] {
      var n := |syms| - 1;
      var front, sym := syms[..n], syms[n];
      WidthBudget(front);
      var e := EncodeSymbols(front);
      var narrowed := e.(iv := Narrow(e.iv, sym));
      var e' := EncodeSymbol(e, sym);
      RenormWidth(narrowed);
      var k := Shifts(e);
      var s := Shifts(e') - k;
      PowAdd(k, s);
      BudgetStep(e.iv.Width(), narrowed.iv.Width(), Pow2(k), Pow2(s), Power(38001, n), Power(1000, n));
    }
  }

  lemma BudgetStep(wide: int, narrow: int, k: int, s: int, a: int, b: int)
    requires narrow * 38001 >= wide * 1000 && s > 0 && a >= 0
    requires wide * a >= 0x1_0000_0000 * (k * b)
    ensures narrow * s * (38001 * a) >= 0x1_0000_0000 * (k * s * (1000 * b))
  {
    assert narrow * 38001 * a >= wide * 1000 * a by { ScaleMonotone(a, wide * 1000, narrow * 38001); }
    assert wide * 1000 * a == 1000 * (wide * a);
    assert 1000 * (wide * a) >= 1000 * (0x1_0000_0000 * (k * b));
    var l, r := narrow * 38001 * a, 1000 * (0x1_0000_0000 * (k * b));
    ScaleMonotone(s, r, l);
    assert narrow * s * (38001 * a) == l * s by { Regroup4(narrow, s, 38001, a); }
    assert k * s * (1000 * b) == 1000 * (k * b) * s by { Regroup4(k, s, 1000, b); RegroupScale(k, 1000, b); }
  }

  lemma Regroup4(n: int, s: int, c: int, a: int)
    ensures n * s * (c * a) == n * c * a * s
  {
    assert n * s * (c * a) == n * (s * (c * a));
    assert s * (c * a) == c * a * s;
    assert n * (c * a * s) == n * (c * a) * s;
    assert n * (c * a) == n * c * a;
  }

  lemma RegroupScale(k: int, c: int, b: int)
    ensures k * c * b == c * (k * b)
  {
    assert k * c == c * k;
    assert c * k * b == c * (k * b);
  }

  lemma ShiftLimit(syms: seq<Symbol>, limit: nat)
    requires Power(38001, |syms|) < Pow2(limit) * Power(1000, |syms|)
    ensures Shifts(EncodeSymbols(syms)) < limit
  {
    WidthBudget(syms);
    var e := EncodeSymbols(syms);
    var k, a, b := Shifts(e), Power(38001, |syms|), Power(1000, |syms|);
    CancelWidth(e.iv.Width(), a, Pow2(k) * b);
    CancelFactor(a, b, Pow2(k), Pow2(limit));
    if k >= limit {
      PowMonotone(limit, k);
    }
  }

  lemma CancelFactor(a: int, b: int, k: int, l: int)
    requires k * b <= a < l * b && b >= 0
    ensures k < l
  {
    if l <= k {
      ScaleMonotone(b, l, k);
    }
  }

  lemma CancelWidth(w: int, a: int, b: int)
    requires w * a >= 0x1_0000_0000 * b && w <= 0x1_0000_0000 && a >= 0
    ensures a >= b
  {
    ScaleMonotone(a, w, 0x1_0000_0000);
  }

  /** Up to 15 symbols (14 characters and EOF) shift at most 78 times, 16 at most 83. */
  lemma ShiftBound(syms: seq<Symbol>)
    ensures |syms| <= 15 ==> Shifts(EncodeSymbols(syms)) <= 78
    ensures |syms| <= 16 ==> Shifts(EncodeSymbols(syms)) <= 83
  {
    if |syms| <= 13 {
      SixShifts(syms);
    } else if |syms| <= 16 {
      var limit := if |syms| == 16 then 84 else 79;
      SymbolBudget(|syms|, limit);
      ShiftLimit(syms, limit);
    }
  }

  lemma SymbolBudget(n: nat, limit: nat)
    requires 14 <= n <= 16 && limit == if n == 16 then 84 else 79
    ensures Power(38001, n) < Pow2(limit) * Power(1000, n)
  {
    PowerTable();
    Pow2Table();
    if n == 14 {
    } else if n == 15 {
    } else {
    }
  }

  lemma Pow2Table()
    ensures Pow2(79) == 604462909807314587353088 && Pow2(84) == 19342813113834066795298816
  {
    Pow32();
    PowAdd(32, 32);
    PowAdd(64, 10);
    PowAdd(74, 5);
    PowAdd(79, 5);
    assert Pow2(5) == 32 && Pow2(10) == 1024;
  }

  lemma PowerTable()
    ensures Power(38001, 14) == 13095749337503088960193387138120920920944336045577109539404532001
    ensures Power(38001, 15) == 497651570574454883576308904635733115916805714067975739606911620570001
    ensures Power(38001, 16) == 18911257333399860030783314685062494137954533940297146080802248493280608001
    ensures Power(1000, 14) == 1000000000000000000000000000000000000000000
    ensures Power(1000, 15) == 1000000000000000000000000000000000000000000000
    ensures Power(1000, 16) == 1000000000000000000000000000000000000000000000000
  {
    assert Power(38001, 3) == 54876332114001;
    assert Power(38001, 6) == 3011411826286137461660228001;
    assert Power(38001, 9) == 165255235511308365952149899745299984342001;
    assert Power(38001, 12) == 9068601187496009747892339039100838101210391935304456001;
    assert Power(38001, 14) == 13095749337503088960193387138120920920944336045577109539404532001;
    assert Power(1000, 3) == 1000000000;
    assert Power(1000, 6) == 1000000000000000000;
    assert Power(1000, 9) == 1000000000000000000000000000;
    assert Power(1000, 12) == 1000000000000000000000000000000000000;
    assert Power(1000, 14) == 1000000000000000000000000000000000000000000;
  }

  /** Six shifts a symbol are always enough. */
  lemma SixShifts(syms: seq<Symbol>)
    ensures Shifts(EncodeSymbols(syms)) <= 6 * |syms|
  {
    var n := |syms|;
    PowersOf64(n);
    assert Pow2(6 * n + 1) == 2 * Pow2(6 * n);
    assert Pow2(6 * n) * Power(1000, n) > 0;
    Regroup(Pow2(6 * n), Power(1000, n));
    ShiftLimit(syms, 6 * n + 1);
  }

  lemma {:induction false} PowersOf64(n: nat)
    ensures Power(38001, n) <= Pow2(6 * n) * Power(1000, n) && Power(1000, n) > 0
  {
    if n > 0 {
      PowersOf64(n - 1);
      PowAdd(6 * (n - 1), 6);
      assert Pow2(6) == 64;
      var a, p, c := Power(38001, n - 1), Pow2(6 * (n - 1)), Power(1000, n - 1);
      assert p * 64 * (1000 * c) == 64000 * (p * c) by { Regroup4(p, 64, 1000, c); RegroupScale(p, 1000, c); }
    }
  }

  // ------------------------------------------------------------------ the round trip

  /** The decoder's renormalisation follows the encoder's until the stream runs out. */
  lemma {:induction false} RenormFollows(e: Encoder, d: Decoder, stream: seq<Bit>, t: seq<Bit>)
    requires e.iv.Valid() && Contains(EncoderRenorm(e), t)
    requires stream <= t && d.iv == e.iv && d.pos == Shifts(e) + 32 <= |stream|
    requires Shifts(e) + 32 <= |t| && d.value == Register(e, t) && d.Valid(stream)
    ensures var e' := EncoderRenorm(e);
      Shifts(e') + 32 <= |t| &&
      DecoderRenorm(d, stream) ==
        if Shifts(e') + 32 <= |stream| then Some(Decoder(e'.iv, Register(e', t), Shifts(e') + 32)) else None
    decreases MAX_CODE + 1 - e.iv.Width()
  {
    if e.iv.Offset().Some? {
      var s := EncoderShift(e);
      RenormContains(s, t);
      BaseShift(e);
      if d.pos < |stream| {
        RegisterShift(e, t);
        RenormFollows(s, DecoderShift(d, stream), stream, t);
      }
    }
  }

  /** Where the decoder stands when the encoder is at `e`. */
  function InStep(e: Encoder, t: seq<Bit>): Decoder
    requires Contains(e, t)
  {
    Decoder(e.iv, Register(e, t), Shifts(e) + 32)
  }

  /** The decoder is at `d`, in step with an encoder about to take `sym`; after one round
      it is at `d'`, or the reader gave up on the way. */
  predicate Round(d: Decoder, sym: Symbol, d': Decoder, stream: seq<Bit>) {
    && d.Valid(stream) && d.iv.Settled() && PickSymbol(d) == sym
    && d.(iv := Narrow(d.iv, sym)).Valid(stream)
    && DecoderRenorm(d.(iv := Narrow(d.iv, sym)), stream) == if d'.pos <= |stream| then Some(d') else None
  }

  lemma RoundFollows(e: Encoder, sym: Symbol, e': Encoder, stream: seq<Bit>, t: seq<Bit>)
    requires e.iv.Settled() && stream <= t && Shifts(e) + 32 <= |stream|
    requires e' == EncodeSymbol(e, sym) && Contains(e', t)
    ensures Contains(e, t) && Round(InStep(e, t), sym, InStep(e', t), stream)
  {
    SymbolContains(e, sym, t);
    var d, n := InStep(e, t), Narrow(e.iv, sym);
    assert Register(e.(iv := n), t) == Register(e, t);
    assert d.Valid(stream);
    PickSymbolUnique(d, sym);
    RenormFollows(e.(iv := n), d.(iv := n), stream, t);
  }

  lemma EncodeSnoc(front: seq<Symbol>, sym: Symbol)
    ensures EncodeSymbols(front + [sym]) == EncodeSymbol(EncodeSymbols(front), sym)
  {
    assert (front + [sym])[..|front|] == front;
  }

  lemma PrefixSnoc(full: seq<Symbol>, i: nat)
    requires i < |full|
    ensures EncodeSymbols(full[..i + 1]) == EncodeSymbol(EncodeSymbols(full[..i]), full[i])
  {
    var p := full[..i + 1];
    assert p[..|p| - 1] == full[..i];
  }

  /** The decoder states in step with an encoder run, and the symbols between them. The
      reader may give up only on the way to the state after the last symbol. */
  predicate Traced(syms: seq<Symbol>, ds: seq<Decoder>, stream: seq<Bit>) {
    && |ds| == |syms| + 2
    && (forall j :: 0 <= j < |syms| ==> ds[j].pos <= |stream|)
    && (forall j :: 0 <= j <= |syms| && ds[j].pos <= |stream| ==>
          Round(ds[j], if j < |syms| then syms[j] else EOF, ds[j + 1], stream))
  }

  /** From the state reached after `i` symbols the decoder appends exactly the rest. */
  lemma {:induction false} DecodeTrace(syms: seq<Symbol>, ds: seq<Decoder>, i: nat, stream: seq<Bit>, cap: nat)
    requires Traced(syms, ds, stream) && EOF !in syms
    requires i <= |syms| && i <= cap && ds[i].pos <= |stream|
    requires ds[i].Valid(stream) && ds[i].iv.Settled()
    ensures DecodeFrom(ds[i], stream, cap, syms[..i]) == syms[..Min(|syms|, cap)]
    decreases |syms| - i
  {
    if i == |syms| {
      assert syms[..i] == syms;
    } else {
      assert syms[i] in syms;
      assert syms[..i] + [syms[i]] == syms[..i + 1];
      if i < cap && ds[i + 1].pos <= |stream| {
        assert Round(ds[i + 1], if i + 1 < |syms| then syms[i + 1] else EOF, ds[i + 2], stream);
        DecodeTrace(syms, ds, i + 1, stream, cap);
      } else if i < cap {
        assert i + 1 == |syms|;
        assert syms[..i + 1] == syms;
      }
    }
  }

  /** Only inside the renormalisation after the last symbol can the reader give up. */
  lemma EarlierFits(syms: seq<Symbol>, j: nat, bits: nat)
    requires j < |syms| && bits >= |EncodeBits(syms)| + 23
    ensures Shifts(EncodeSymbols((syms + [EOF])[..j])) + 32 <= bits
  {
    var full := syms + [EOF];
    PrefixShifts(full, j);
    assert |EncodeBits(syms)| == Shifts(EncodeSymbols(full)) + 2;
  }

  lemma BuildTrace(syms: seq<Symbol>, stream: seq<Bit>, t: seq<Bit>) returns (ds: seq<Decoder>)
    requires Contains(EncodeSymbols(syms + [EOF]), t) && stream <= t
    requires |stream| >= |EncodeBits(syms)| + 23
    ensures Traced(syms, ds, stream)
    ensures Contains(ENCODER_START, t) && ds[0] == InStep(ENCODER_START, t)
  {
    var full := syms + [EOF];
    forall j: nat | j <= |full| ensures Contains(EncodeSymbols(full[..j]), t) {
      PrefixContains(full, j, t);
    }
    ds := seq(|full| + 1, j requires 0 <= j <= |full| => InStep(EncodeSymbols(full[..j]), t));
    assert full[..0] == [] && EncodeSymbols([]) == ENCODER_START;
    forall j | 0 <= j < |syms| ensures ds[j].pos <= |stream| {
      EarlierFits(syms, j, |stream|);
    }
    forall j | 0 <= j <= |syms| && ds[j].pos <= |stream|
      ensures Round(ds[j], if j < |syms| then syms[j] else EOF, ds[j + 1], stream)
    {
      FullRound(full, j, stream, t, ds[j], ds[j + 1]);
    }
  }

  lemma FullRound(full: seq<Symbol>, j: nat, stream: seq<Bit>, t: seq<Bit>, d: Decoder, d': Decoder)
    requires j < |full| && stream <= t
    requires Contains(EncodeSymbols(full[..j]), t) && d == InStep(EncodeSymbols(full[..j]), t) && d.pos <= |stream|
    requires Contains(EncodeSymbols(full[..j + 1]), t) && d' == InStep(EncodeSymbols(full[..j + 1]), t)
    ensures Round(d, full[j], d', stream)
  {
    PrefixSnoc(full, j);
    RoundFollows(EncodeSymbols(full[..j]), full[j], EncodeSymbols(full[..j + 1]), stream, t);
  }

  /** Decoding any stream that starts with the encoding and offers at least 23 more bits
      gives back the message, cut to the room the caller left for it. */
  lemma RoundTripBits(syms: seq<Symbol>, stream: seq<Bit>, cap: nat)
    requires EOF !in syms
    requires EncodeBits(syms) <= stream && |stream| >= |EncodeBits(syms)| + 23 && |stream| >= 32
    ensures Decode(stream, cap) == Some(syms[..Min(|syms|, cap)])
  {
    var t := stream + Repeat(0, 9);
    assert stream <= t;
    StreamContains(EncodeSymbols(syms + [EOF]), stream, t);
    var ds := BuildTrace(syms, stream, t);
    StartInStep(stream, t);
    assert syms[..0] == [];
    ValueBound(stream[..32]);
    Pow32();
    DecodeTrace(syms, ds, 0, stream, cap);
  }

  lemma StreamContains(last: Encoder, stream: seq<Bit>, t: seq<Bit>)
    requires last.iv.Settled() && Flush(last) <= stream <= t
    requires |stream| >= |Flush(last)| + 23 && |t| >= |stream| + 9
    ensures Contains(last, t)
  {
    FlushValue(last);
    assert Flush(last) <= t;
    FlushContains(last, t);
  }

  /** The decoder starts with the first 32 bits. */
  lemma StartInStep(stream: seq<Bit>, t: seq<Bit>)
    requires Contains(ENCODER_START, t) && stream <= t && |stream| >= 32
    ensures InStep(ENCODER_START, t) == Decoder(FULL, Value(stream[..32]), 32)
  {
    assert t[..32] == stream[..32];
    assert Base(ENCODER_START) == 0 by { assert Value([]) == 0; assert Pow2(0) == 1; }
  }

  /** The length of the encoding: two bits more than the shifts of all its symbols. */
  lemma EncodedLength(syms: seq<Symbol>)
    ensures |EncodeBits(syms)| == Shifts(EncodeSymbols(syms + [EOF])) + 2
    ensures 4 * |syms| + 6 <= |EncodeBits(syms)| <= 6 * |syms| + 8
    ensures |syms| <= 14 ==> |EncodeBits(syms)| <= 80
    ensures |syms| <= 15 ==> |EncodeBits(syms)| <= 85
  {
    var full := syms + [EOF];
    PrefixShifts(full, 0);
    SixShifts(full);
    ShiftBound(full);
  }
}
