/** The 32-bit integer arithmetic coder of datalink_arq/arith.c, as functions on
    values: what the encoder emits and what the decoder reads back. */
module CoderSpec {
  import opened Common
  import opened BitStrings

  const NUM_SYMBOLS: nat := 38  // 37 printable symbols and EOF
  const EOF: nat := 37
  const MAX_CODE: nat := 0xFFFF_FFFF
  const HALF: nat := 0x8000_0000
  const QUARTER: nat := 0x4000_0000
  const THREE_QUARTERS: nat := 0xC000_0000
  const SYMBOLS: string := "ABCDEFGHIJKLM" + "NOPQRSTUVWXYZ" + "0123456789-" + "\0"
  const READ_AHEAD: nat := 24   // reads past the input: 23 zero bits, then failure

  type Symbol = s: int | 0 <= s < NUM_SYMBOLS

  predicate Printable(c: char) {
    'A' <= c <= 'Z' || '0' <= c <= '9' || c == '-'
  }

  function SymbolOf(c: char): Symbol
    requires Printable(c)
  {
    if 'A' <= c <= 'Z' then c as int - 'A' as int
    else if '0' <= c <= '9' then 26 + (c as int - '0' as int)
    else 36
  }

  function SymbolsOf(msg: string): (r: seq<Symbol>)
    requires forall i :: 0 <= i < |msg| ==> Printable(msg[i])
    ensures |r| == |msg|
    ensures forall i :: 0 <= i < |msg| ==> r[i] == SymbolOf(msg[i])
  {
    seq(|msg|, i requires 0 <= i < |msg| => SymbolOf(msg[i]))
  }

  /** init_model: every symbol has frequency one. */
  function CumFreq(i: nat): nat { i }

  // ------------------------------------------------------------------ intervals

  datatype Interval = Interval(low: nat, high: nat) {
    predicate Valid() { low <= high <= MAX_CODE }
    function Width(): int { high - low + 1 }
    /** What renormalisation subtracts before doubling, if anything remains to be done. */
    function Offset(): Option<nat> {
      if high < HALF then Some(0)
      else if low >= HALF then Some(HALF)
      else if low >= QUARTER && high < THREE_QUARTERS then Some(QUARTER)
      else None
    }
    /** No further renormalisation applies. */
    predicate Settled() { Valid() && Offset() == None }
    function Shift(): (r: Interval)
      requires Valid() && Offset().Some?
      ensures r.Valid() && r.Width() == 2 * Width()
    {
      var off := Offset().value;
      Interval(2 * (low - off), 2 * (high - off) + 1)
    }
  }

  const FULL := Interval(0, MAX_CODE)

  lemma SettledIsWide(iv: Interval)
    requires iv.Settled()
    ensures iv.Width() > QUARTER
  {
  }

  function Narrow(iv: Interval, sym: Symbol): (r: Interval)
    requires iv.Settled()
    ensures r.Valid() && iv.low <= r.low && r.high <= iv.high
    ensures r.Width() * 38001 >= iv.Width() * 1000 && r.Width() <= iv.Width() / 38 + 1
  {
    var range := iv.Width();
    assert range > QUARTER by { SettledIsWide(iv); }
    var lo := range * CumFreq(sym) / NUM_SYMBOLS;
    var hi := range * CumFreq(sym + 1) / NUM_SYMBOLS;
    NarrowArith(range, sym);
    Interval(iv.low + lo, iv.low + hi - 1)
  }

  lemma NarrowArith(range: int, sym: Symbol)
    requires range > QUARTER
    ensures var lo, hi := range * sym / 38, range * (sym + 1) / 38;
      0 <= lo < hi <= range && (hi - lo) * 38001 >= range * 1000 && hi - lo <= range / 38 + 1
  {
    var x := range * sym;
    assert range * (sym + 1) == x + range;
    assert 0 <= x && x + range <= range * 38;
  }

  // ------------------------------------------------------------------ encoder

  /** Encoder state: interval, pending underflow bits, bits written. */
  datatype Encoder = Encoder(iv: Interval, pending: nat, bits: seq<Bit>)

  const ENCODER_START := Encoder(FULL, 0, [])

  function Emit(bits: seq<Bit>, b: Bit, pending: nat): seq<Bit> {
    bits + [b] + Repeat(1 - b, pending)
  }

  function EncoderShift(e: Encoder): Encoder
    requires e.iv.Valid() && e.iv.Offset().Some?
  {
    var off := e.iv.Offset().value;
    if off == QUARTER then Encoder(e.iv.Shift(), e.pending + 1, e.bits)
    else Encoder(e.iv.Shift(), 0, Emit(e.bits, if off == 0 then 0 else 1, e.pending))
  }

  function EncoderRenorm(e: Encoder): (r: Encoder)
    requires e.iv.Valid()
    ensures r.iv.Settled()
    decreases MAX_CODE + 1 - e.iv.Width()
  {
    if e.iv.Offset().None? then e else EncoderRenorm(EncoderShift(e))
  }

  function EncodeSymbol(e: Encoder, sym: Symbol): (r: Encoder)
    requires e.iv.Settled()
    ensures r.iv.Settled()
  {
    EncoderRenorm(e.(iv := Narrow(e.iv, sym)))
  }

  function EncodeSymbols(syms: seq<Symbol>): (r: Encoder)
    ensures r.iv.Settled()
  {
    if syms == [] then ENCODER_START
    else EncodeSymbol(EncodeSymbols(syms[..|syms| - 1]), syms[|syms| - 1])
  }

  /** The bits written once the message is over. */
  function Flush(e: Encoder): seq<Bit> {
    Emit(e.bits, if e.iv.low < QUARTER then 0 else 1, e.pending + 1)
  }

  /** The whole encoding of a message. */
  function EncodeBits(syms: seq<Symbol>): seq<Bit> {
    Flush(EncodeSymbols(syms + [EOF]))
  }

  /** Renormalisation shifts performed so far: every shift writes a bit or leaves one pending. */
  function Shifts(e: Encoder): nat { |e.bits| + e.pending }

  // ------------------------------------------------------------------ decoder

  /** Decoder state: interval, 32-bit register, bits of the stream consumed. */
  datatype Decoder = Decoder(iv: Interval, value: int, pos: nat) {
    predicate Valid(stream: seq<Bit>) {
      iv.Valid() && iv.low <= value <= iv.high && pos <= |stream|
    }
  }

  /** None when the reader gives up. */
  function DecoderRenorm(d: Decoder, stream: seq<Bit>): (r: Option<Decoder>)
    requires d.Valid(stream)
    ensures r.Some? ==> r.value.Valid(stream) && r.value.iv.Settled() && d.pos <= r.value.pos
    ensures r.Some? && d.iv.Offset().Some? ==> d.pos < r.value.pos
    decreases |stream| - d.pos
  {
    if d.iv.Offset().None? then Some(d)
    else if d.pos == |stream| then None
    else DecoderRenorm(DecoderShift(d, stream), stream)
  }

  function DecoderShift(d: Decoder, stream: seq<Bit>): (r: Decoder)
    requires d.Valid(stream) && d.iv.Offset().Some? && d.pos < |stream|
    ensures r.Valid(stream)
  {
    Decoder(d.iv.Shift(), 2 * (d.value - d.iv.Offset().value) + stream[d.pos], d.pos + 1)
  }

  /** The symbol whose slice of the interval holds the register. */
  function PickSymbol(d: Decoder): int
    requires d.iv.Settled() && d.iv.low <= d.value <= d.iv.high
  {
    ((d.value - d.iv.low + 1) * NUM_SYMBOLS - 1) / d.iv.Width()
  }

  /** A symbol's slice holds offset `k` exactly when k's scaled position falls in it. */
  lemma SliceIff(w: int, k: int, sym: Symbol)
    requires 0 <= k < w
    ensures w * sym / 38 <= k <= w * (sym + 1) / 38 - 1 <==> w * sym <= 38 * k + 37 < w * (sym + 1)
  {
    var x := w * sym;
    assert w * (sym + 1) == x + w;
  }

  lemma ScaleMonotone(w: int, a: int, b: int)
    requires 0 <= w && a <= b
    ensures w * a <= w * b
  {
  }

  /** The slices are ordered, so one position falls in one slice only. */
  lemma SliceUnique(w: int, t: int, s: int, q: int)
    requires w > 0 && w * s <= t < w * (s + 1) && w * q <= t < w * (q + 1)
    ensures s == q
  {
    if s < q {
      ScaleMonotone(w, s + 1, q);
    } else if q < s {
      ScaleMonotone(w, q + 1, s);
    }
  }

  lemma QuotientSlice(w: int, t: int)
    requires w > 0 && 0 <= t < 38 * w
    ensures 0 <= t / w < 38 && w * (t / w) <= t < w * (t / w + 1)
  {
    assert t == w * (t / w) + t % w;
    assert w * (t / w + 1) == w * (t / w) + w;
    var q := t / w;
    if q >= 38 {
      ScaleMonotone(w, 38, q);
    }
  }

  /** Some symbol always matches, and narrowing to it keeps the register inside. */
  lemma PickSymbolFits(d: Decoder)
    requires d.iv.Settled() && d.iv.low <= d.value <= d.iv.high
    ensures 0 <= PickSymbol(d) < NUM_SYMBOLS
    ensures var n := Narrow(d.iv, PickSymbol(d)); n.low <= d.value <= n.high && n.Offset().Some?
  {
    var w, k := d.iv.Width(), d.value - d.iv.low;
    QuotientSlice(w, 38 * k + 37);
    SliceIff(w, k, PickSymbol(d));
    NarrowedIsNarrow(d.iv, PickSymbol(d));
  }

  /** No other symbol's slice holds the register. */
  lemma PickSymbolUnique(d: Decoder, sym: Symbol)
    requires d.iv.Settled() && d.iv.low <= d.value <= d.iv.high
    requires var n := Narrow(d.iv, sym); n.low <= d.value <= n.high
    ensures PickSymbol(d) == sym
  {
    var w, k := d.iv.Width(), d.value - d.iv.low;
    QuotientSlice(w, 38 * k + 37);
    SliceIff(w, k, sym);
    SliceUnique(w, 38 * k + 37, PickSymbol(d), sym);
  }

  /** One symbol always leaves renormalisation to do. */
  lemma NarrowedIsNarrow(iv: Interval, sym: Symbol)
    requires iv.Settled()
    ensures Narrow(iv, sym).Offset().Some?
  {
    var n := Narrow(iv, sym);
    assert n.Width() <= 0x1_0000_0000 / 38 + 1;
    if n.Offset().None? {
      SettledIsWide(n);
    }
  }

  /** What the decoder has appended to `out` when it stops. `cap` is max_output - 1. */
  function DecodeFrom(d: Decoder, stream: seq<Bit>, cap: nat, out: seq<Symbol>): seq<Symbol>
    requires d.Valid(stream) && d.iv.Settled()
    decreases |stream| - d.pos
  {
    PickSymbolFits(d);
    var sym := PickSymbol(d);
    if sym == EOF || |out| >= cap then out
    else
      match DecoderRenorm(d.(iv := Narrow(d.iv, sym)), stream)
      case None => out + [sym]
      case Some(d') => DecodeFrom(d', stream, cap, out + [sym])
  }

  /** None when the stream cannot fill the register. */
  function Decode(stream: seq<Bit>, cap: nat): Option<seq<Symbol>> {
    if |stream| < 32 then None
    else
      ValueBound(stream[..32]);
      Pow32();
      Some(DecodeFrom(Decoder(FULL, Value(stream[..32]), 32), stream, cap, []))
  }

  /** What br_read_bit delivers over a buffer: its bits, then 23 zeros. */
  function Stream(input: seq<bv8>): seq<Bit> {
    BitsOf(input) + Repeat(0, READ_AHEAD - 1)
  }
}
