/** datalink_arq/arith.c in its own form: bit writer and reader over byte buffers, the
    encoder and decoder loops, each proved against CoderSpec. */
module Coder {
  import opened Common
  import opened BitStrings
  import opened CoderSpec
  import opened CoderProofs

  const BUFFER_SIZE: nat := 4096
  const MAX_ENCODE_BITS: nat := BUFFER_SIZE * 8

  /** First index of `c` among the symbols, or -1. */
  method FindIndex(c: char) returns (sym: int)
    ensures Printable(c) ==> sym == SymbolOf(c)
    ensures c == '\0' ==> sym == EOF
    ensures !Printable(c) && c != '\0' ==> sym == -1
  {
    SymbolsInOrder();
    sym := 0;
    while sym < NUM_SYMBOLS
      invariant 0 <= sym <= NUM_SYMBOLS
      invariant forall j :: 0 <= j < sym ==> SYMBOLS[j] != c
    {
      if SYMBOLS[sym] == c {
        return;
      }
      sym := sym + 1;
    }
    sym := -1;
  }

  lemma SymbolsInOrder()
    ensures |SYMBOLS| == NUM_SYMBOLS && SYMBOLS[EOF] == '\0'
    ensures forall s: Symbol :: s < EOF ==> Printable(SYMBOLS[s]) && SymbolOf(SYMBOLS[s]) == s
    ensures forall c: char :: Printable(c) ==> SYMBOLS[SymbolOf(c)] == c
  {
    LettersInOrder();
    forall c: char | Printable(c) ensures SYMBOLS[SymbolOf(c)] == c {
      assert SymbolOf(SYMBOLS[SymbolOf(c)]) == SymbolOf(c);
    }
  }

  lemma LettersInOrder()
    ensures |SYMBOLS| == NUM_SYMBOLS && SYMBOLS[EOF] == '\0' && SYMBOLS[36] == '-'
    ensures forall s: Symbol :: s < 26 ==> SYMBOLS[s] == 'A' + s as char
    ensures forall s: Symbol :: 26 <= s < 36 ==> SYMBOLS[s] == '0' + (s - 26) as char
  {
    forall s: Symbol | s < 13 ensures SYMBOLS[s] == 'A' + s as char {
      assert SYMBOLS[s] == "ABCDEFGHIJKLM"[s];
    }
    forall s: Symbol | 13 <= s < 26 ensures SYMBOLS[s] == 'A' + s as char {
      assert SYMBOLS[s] == "NOPQRSTUVWXYZ"[s - 13];
    }
    forall s: Symbol | 26 <= s < 36 ensures SYMBOLS[s] == '0' + (s - 26) as char {
      assert SYMBOLS[s] == "0123456789-"[s - 26];
    }
  }

  // ------------------------------------------------------------------ bit writer and reader

  class BitWriter {
    const buffer: array<bv8>
    var bitpos: nat
    var bytepos: nat
    var totalBits: nat

    ghost predicate Valid()
      reads this, buffer
    {
      && buffer.Length >= BUFFER_SIZE && bitpos < 8
      && totalBits == 8 * bytepos + bitpos <= MAX_ENCODE_BITS
      && forall i :: totalBits <= i < MAX_ENCODE_BITS ==> BitAt(buffer[..], i) == 0
    }

    ghost function Written(): (r: seq<Bit>)
      requires Valid()
      reads this, buffer
      ensures |r| == totalBits
    {
      BitsOf(buffer[..])[..totalBits]
    }

    constructor (buf: array<bv8>)
      requires buf.Length >= BUFFER_SIZE
      modifies buf
      ensures Valid() && buffer == buf && Written() == []
      ensures buf[BUFFER_SIZE..] == old(buf[BUFFER_SIZE..])
    {
      buffer := buf;
      bitpos, bytepos, totalBits := 0, 0, 0;
      new;
      forall i | 0 <= i < BUFFER_SIZE {
        buf[i] := 0;
      }
      assert forall i :: 0 <= i < MAX_ENCODE_BITS ==> buf[..][i / 8] == 0;
    }

    /** False where the original gives up the process: the buffer is full. */
    method WriteBit(bit: Bit) returns (ok: bool)
      requires Valid()
      modifies this, buffer
      ensures Valid() && buffer[BUFFER_SIZE..] == old(buffer[BUFFER_SIZE..])
      ensures ok <==> old(totalBits) < MAX_ENCODE_BITS
      ensures Written() == if ok then old(Written()) + [bit] else old(Written())
    {
      if bytepos * 8 + bitpos >= MAX_ENCODE_BITS {
        return false;
      }
      ghost var before, n := buffer[..], totalBits;
      if bit == 1 {
        buffer[bytepos] := buffer[bytepos] | Mask(bitpos);
      }
      OneBitSet(before, buffer[..], n, bit);
      bitpos := bitpos + 1;
      if bitpos == 8 {
        bitpos := 0;
        bytepos := bytepos + 1;
      }
      totalBits := totalBits + 1;
      ok := true;
      assert BitsOf(buffer[..])[..n + 1] == BitsOf(before)[..n] + [bit];
    }

    /** Writes `bit` `count` times. */
    method WriteRun(bit: Bit, count: nat) returns (ok: bool)
      requires Valid()
      modifies this, buffer
      ensures Valid() && buffer[BUFFER_SIZE..] == old(buffer[BUFFER_SIZE..])
      ensures ok <==> old(totalBits) + count <= MAX_ENCODE_BITS
      ensures ok ==> Written() == old(Written()) + Repeat(bit, count)
    {
      var pending := count;
      ok := true;
      assert Repeat(bit, 0) == [];
      while pending > 0
        invariant Valid() && 0 <= pending <= count && ok
        invariant buffer[BUFFER_SIZE..] == old(buffer[BUFFER_SIZE..])
        invariant Written() == old(Written()) + Repeat(bit, count - pending)
      {
        pending := pending - 1;
        ok := WriteBit(bit);
        if !ok {
          return;
        }
        assert Repeat(bit, count - pending) == Repeat(bit, count - pending - 1) + [bit];
      }
    }

    /** One bit, then its complement once for every pending underflow. */
    method WriteWithPending(bit: Bit, pending: nat) returns (ok: bool)
      requires Valid()
      modifies this, buffer
      ensures Valid() && buffer[BUFFER_SIZE..] == old(buffer[BUFFER_SIZE..])
      ensures ok <==> old(totalBits) + 1 + pending <= MAX_ENCODE_BITS
      ensures ok ==> Written() == Emit(old(Written()), bit, pending)
    {
      ok := WriteBit(bit);
      if ok {
        ok := WriteRun(1 - bit, pending);
      }
    }

    method Bytes() returns (n: nat)
      requires Valid()
      ensures 8 * n - 8 < totalBits <= 8 * n
    {
      n := bytepos + if bitpos != 0 then 1 else 0;
    }
  }

  lemma OneBitSet(before: seq<bv8>, after: seq<bv8>, n: nat, bit: Bit)
    requires |before| == |after| && n < 8 * |before| && BitAt(before, n) == 0
    requires after == before[n / 8 := if bit == 1 then before[n / 8] | Mask(n % 8) else before[n / 8]]
    ensures BitAt(after, n) == bit
    ensures forall i :: 0 <= i < 8 * |before| && i != n ==> BitAt(after, i) == BitAt(before, i)
  {
    forall i | 0 <= i < 8 * |before| && i != n ensures BitAt(after, i) == BitAt(before, i) {
      OtherBit(before, after, n, i, bit);
    }
    OrSetsOneBit(before[n / 8], n % 8, n % 8);
  }

  lemma OtherBit(before: seq<bv8>, after: seq<bv8>, n: nat, i: nat, bit: Bit)
    requires |before| == |after| && n < 8 * |before| && i < 8 * |before| && i != n
    requires after == before[n / 8 := if bit == 1 then before[n / 8] | Mask(n % 8) else before[n / 8]]
    ensures BitAt(after, i) == BitAt(before, i)
  {
    if i / 8 == n / 8 {
      OtherBitOfByte(before[n / 8], after[n / 8], n % 8, i % 8, bit);
    }
  }

  lemma OtherBitOfByte(before: bv8, after: bv8, k: nat, j: nat, bit: Bit)
    requires k < 8 && j < 8 && j != k && after == if bit == 1 then before | Mask(k) else before
    ensures (after & Mask(j) != 0) == (before & Mask(j) != 0)
  {
    OrSetsOneBit(before, k, j);
  }

  class BitReader {
    const buffer: seq<bv8>
    const length: nat
    var bitpos: nat
    var bytepos: nat
    var maxReadAhead: int

    ghost predicate Valid()
      reads this
    {
      && length <= |buffer| && bitpos < 8 && 1 <= maxReadAhead <= READ_AHEAD
      && (bytepos < length ==> maxReadAhead == READ_AHEAD)
      && (bytepos >= length ==> bytepos == length && bitpos == 0)
    }

    /** Bits delivered so far. */
    ghost function Taken(): (r: nat)
      requires Valid()
      reads this
      ensures r <= |Bits()|
    {
      8 * bytepos + bitpos + (READ_AHEAD - maxReadAhead)
    }

    ghost function Bits(): (r: seq<Bit>)
      requires length <= |buffer|
      ensures |r| == 8 * length + READ_AHEAD - 1
    {
      Stream(buffer[..length])
    }

    constructor (buf: seq<bv8>, len: nat)
      requires len <= |buf|
      ensures Valid() && buffer == buf && length == len && Taken() == 0
    {
      buffer, length := buf, len;
      bitpos, bytepos, maxReadAhead := 0, 0, READ_AHEAD;
    }

    /** Behind the buffer: zeros until the read-ahead is used up. */
    method ReadAhead() returns (b: int)
      requires Valid() && bytepos >= length
      modifies this`maxReadAhead
      ensures old(Taken()) == |Bits()| ==> b == -1
      ensures old(Taken()) < |Bits()| ==>
        Valid() && b == Bits()[old(Taken())] && Taken() == old(Taken()) + 1
    {
      ghost var s, taken := buffer[..length], Taken();
      maxReadAhead := maxReadAhead - 1;
      if maxReadAhead == 0 {
        return -1;
      }
      AfterTheBuffer(s, taken);
      return 0;
    }

    /** The next bit of the stream, or -1 once the read-ahead is used up. */
    method ReadBit() returns (b: int)
      requires Valid()
      modifies this
      ensures old(Taken()) == |Bits()| ==> b == -1
      ensures old(Taken()) < |Bits()| ==>
        Valid() && b == Bits()[old(Taken())] && Taken() == old(Taken()) + 1
    {
      if bytepos >= length {
        b := ReadAhead();
        return;
      }
      ghost var s, taken := buffer[..length], Taken();
      b := if buffer[bytepos] & Mask(bitpos) != 0 then 1 else 0;
      BitInByte(s, bytepos, bitpos);
      assert b == Stream(s)[taken];
      bitpos := bitpos + 1;
      if bitpos == 8 {
        bitpos := 0;
        bytepos := bytepos + 1;
      }
    }
  }

  lemma AfterTheBuffer(s: seq<bv8>, k: nat)
    requires 8 * |s| <= k < |Stream(s)|
    ensures Stream(s)[k] == 0
  {
  }

  lemma BitInByte(s: seq<bv8>, byte: nat, bit: nat)
    requires byte < |s| && bit < 8
    ensures 8 * byte + bit < 8 * |s| && BitAt(s, 8 * byte + bit) == if s[byte] & Mask(bit) != 0 then 1 else 0
  {
    assert (8 * byte + bit) / 8 == byte && (8 * byte + bit) % 8 == bit;
  }

  // ------------------------------------------------------------------ encode

  /** The number of bytes written, or why there are none. `LimitExceeded` is where the
      original exits the process. */
  datatype EncodeResult = Encoded(bytes: nat) | UnknownSymbol | LimitExceeded

  predicate AllPrintable(msg: string) {
    forall i :: 0 <= i < |msg| ==> Printable(msg[i])
  }

  /** The bytes `buf` hold exactly these bits, zero-padded. */
  ghost predicate Holds(buf: seq<bv8>, bits: seq<Bit>) {
    |bits| <= 8 * |buf| < |bits| + 8 &&
    BitsOf(buf) == bits + Repeat(0, 8 * |buf| - |bits|)
  }

  method EncoderRenormalise(bw: BitWriter, low0: nat, high0: nat, pending0: nat)
      returns (ok: bool, low: nat, high: nat, pending: nat)
    requires bw.Valid() && Interval(low0, high0).Valid()
    modifies bw, bw.buffer
    ensures bw.Valid() && bw.buffer[BUFFER_SIZE..] == old(bw.buffer[BUFFER_SIZE..])
    ensures var target := EncoderRenorm(Encoder(Interval(low0, high0), pending0, old(bw.Written())));
      if ok then Encoder(Interval(low, high), pending, bw.Written()) == target
      else |target.bits| > MAX_ENCODE_BITS
  {
    low, high, pending := low0, high0, pending0;
    ghost var target := EncoderRenorm(Encoder(Interval(low, high), pending, bw.Written()));
    while true
      invariant bw.Valid() && Interval(low, high).Valid()
      invariant bw.buffer[BUFFER_SIZE..] == old(bw.buffer[BUFFER_SIZE..])
      invariant EncoderRenorm(Encoder(Interval(low, high), pending, bw.Written())) == target
      decreases MAX_CODE + 1 - (high - low)
    {
      ghost var e := Encoder(Interval(low, high), pending, bw.Written());
      RenormExtends(e);
      if high < HALF {
        ok := bw.WriteWithPending(0, pending);
        if !ok { return; }
        pending := 0;
      } else if low >= HALF {
        ok := bw.WriteWithPending(1, pending);
        if !ok { return; }
        pending := 0;
        low := low - HALF;
        high := high - HALF;
      } else if low >= QUARTER && high < THREE_QUARTERS {
        pending := pending + 1;
        low := low - QUARTER;
        high := high - QUARTER;
      } else {
        break;
      }
      low := 2 * low;
      high := 2 * high + 1;
      assert Encoder(Interval(low, high), pending, bw.Written()) == EncoderShift(e);
    }
    ok := true;
  }

  /** Renormalisation only appends bits. */
  lemma {:induction false} RenormExtends(e: Encoder)
    requires e.iv.Valid()
    ensures e.bits <= EncoderRenorm(e).bits
    ensures e.iv.Offset().Some? ==> EncoderShift(e).bits <= EncoderRenorm(e).bits
    decreases MAX_CODE + 1 - e.iv.Width()
  {
    if e.iv.Offset().Some? {
      RenormExtends(EncoderShift(e));
    }
  }

  lemma {:induction false} SymbolsExtend(syms: seq<Symbol>, i: nat)
    requires i <= |syms|
    ensures |EncodeSymbols(syms[..i]).bits| <= |EncodeSymbols(syms).bits|
    decreases |syms|
  {
    if i == |syms| {
      assert syms[..i] == syms;
    } else {
      var front := syms[..|syms| - 1];
      assert front[..i] == syms[..i];
      SymbolsExtend(front, i);
      var e := EncodeSymbols(front);
      RenormExtends(e.(iv := Narrow(e.iv, syms[|syms| - 1])));
    }
  }

  method EncodeOne(bw: BitWriter, low0: nat, high0: nat, pending0: nat, sym: Symbol)
      returns (ok: bool, low: nat, high: nat, pending: nat)
    requires bw.Valid() && Interval(low0, high0).Settled()
    modifies bw, bw.buffer
    ensures bw.Valid() && bw.buffer[BUFFER_SIZE..] == old(bw.buffer[BUFFER_SIZE..])
    ensures var target := EncodeSymbol(Encoder(Interval(low0, high0), pending0, old(bw.Written())), sym);
      if ok then Encoder(Interval(low, high), pending, bw.Written()) == target
      else |target.bits| > MAX_ENCODE_BITS
  {
    var range := high0 - low0 + 1;
    var symLow, symHigh := CumFreq(sym), CumFreq(sym + 1);
    ghost var n := Narrow(Interval(low0, high0), sym);
    high := low0 + range * symHigh / NUM_SYMBOLS - 1;
    low := low0 + range * symLow / NUM_SYMBOLS;
    assert Interval(low, high) == n;
    ok, low, high, pending := EncoderRenormalise(bw, low, high, pending0);
  }

  /** One more symbol behind those in `syms`. */
  method EncodeNext(bw: BitWriter, low0: nat, high0: nat, pending0: nat, sym: Symbol, ghost syms: seq<Symbol>)
      returns (ok: bool, low: nat, high: nat, pending: nat)
    requires bw.Valid() && EncodeSymbols(syms) == Encoder(Interval(low0, high0), pending0, bw.Written())
    modifies bw, bw.buffer
    ensures bw.Valid() && bw.buffer[BUFFER_SIZE..] == old(bw.buffer[BUFFER_SIZE..])
    ensures var target := EncodeSymbols(syms + [sym]);
      if ok then Encoder(Interval(low, high), pending, bw.Written()) == target
      else |target.bits| > MAX_ENCODE_BITS
  {
    EncodeSnoc(syms, sym);
    ok, low, high, pending := EncodeOne(bw, low0, high0, pending0, sym);
  }

  /** The symbol of the character at `i`, EOF at the end of the string, -1 if there is none. */
  method SymbolAt(msg: string, i: nat) returns (sym: int)
    requires i <= |msg| && '\0' !in msg
    ensures -1 <= sym <= EOF
    ensures i == |msg| <==> sym == EOF
    ensures i < |msg| ==> (Printable(msg[i]) <==> sym >= 0)
    ensures i < |msg| && Printable(msg[i]) ==> sym == SymbolOf(msg[i])
  {
    if i == |msg| {
      sym := EOF;
    } else {
      assert msg[i] in msg;
      sym := FindIndex(msg[i]);
    }
  }

  /** Encodes every character and the closing EOF; `sym` tells how it ended. */
  method EncodeLoop(bw: BitWriter, msg: string)
      returns (ok: bool, sym: int, low: nat, high: nat, pending: nat)
    requires bw.Valid() && bw.Written() == [] && '\0' !in msg
    modifies bw, bw.buffer
    ensures bw.Valid() && bw.buffer[BUFFER_SIZE..] == old(bw.buffer[BUFFER_SIZE..])
    ensures sym < 0 ==> !ok && !AllPrintable(msg)
    ensures sym >= 0 && !ok && AllPrintable(msg) ==> |EncodeBits(SymbolsOf(msg))| > MAX_ENCODE_BITS
    ensures ok ==> AllPrintable(msg)
    ensures ok ==> EncodeSymbols(SymbolsOf(msg) + [EOF]) == Encoder(Interval(low, high), pending, bw.Written())
  {
    low, high, pending := 0, MAX_CODE, 0;
    var i := 0;
    ghost var syms: seq<Symbol> := [];
    while true
      invariant 0 <= i <= |msg| && |syms| == i
      invariant bw.Valid() && bw.buffer[BUFFER_SIZE..] == old(bw.buffer[BUFFER_SIZE..])
      invariant forall j :: 0 <= j < i ==> Printable(msg[j]) && syms[j] == SymbolOf(msg[j])
      invariant EncodeSymbols(syms) == Encoder(Interval(low, high), pending, bw.Written())
      decreases |msg| - i
    {
      sym := SymbolAt(msg, i);
      if sym < 0 {
        ok := false;
        return;
      }
      ok, low, high, pending := EncodeNext(bw, low, high, pending, sym, syms);
      syms := syms + [sym];
      if !ok {
        if AllPrintable(msg) {
          SymbolsSoFar(msg, syms);
          LimitReached(SymbolsOf(msg), syms);
        }
        return;
      }
      if sym == EOF {
        break;
      }
      i := i + 1;
    }
    AllSymbols(msg, syms);
  }

  lemma SymbolsSoFar(msg: string, syms: seq<Symbol>)
    requires AllPrintable(msg) && |syms| <= |msg| + 1 && (|syms| == |msg| + 1 ==> syms[|msg|] == EOF)
    requires forall j :: 0 <= j < |syms| && j < |msg| ==> syms[j] == SymbolOf(msg[j])
    ensures syms <= SymbolsOf(msg) + [EOF]
  {
  }

  lemma AllSymbols(msg: string, syms: seq<Symbol>)
    requires AllPrintable(msg) && |syms| == |msg| + 1 && syms[|msg|] == EOF
    requires forall j :: 0 <= j < |msg| ==> syms[j] == SymbolOf(msg[j])
    ensures SymbolsOf(msg) + [EOF] == syms
  {
  }

  method ArithmeticEncode(msg: string, output: array<bv8>) returns (r: EncodeResult)
    requires output.Length >= BUFFER_SIZE && '\0' !in msg
    modifies output
    ensures output[BUFFER_SIZE..] == old(output[BUFFER_SIZE..])
    ensures r.Encoded? ==> AllPrintable(msg) && r.bytes <= BUFFER_SIZE
    ensures r.Encoded? ==> Holds(output[..r.bytes], EncodeBits(SymbolsOf(msg)))
    ensures r.Encoded? ==> forall i :: r.bytes <= i < BUFFER_SIZE ==> output[i] == 0
    ensures r.UnknownSymbol? ==> !AllPrintable(msg)
    ensures AllPrintable(msg) ==> (r.Encoded? <==> |EncodeBits(SymbolsOf(msg))| <= MAX_ENCODE_BITS)
  {
    var bw := new BitWriter(output);
    var ok, sym, low, high, pending := EncodeLoop(bw, msg);
    if !ok {
      return if sym < 0 then UnknownSymbol else LimitExceeded;
    }
    pending := pending + 1;
    ok := bw.WriteWithPending(if low < QUARTER then 0 else 1, pending);
    if !ok {
      return LimitExceeded;
    }
    var bytes := bw.Bytes();
    r := Encoded(bytes);
    WrittenBytes(output[..], bw.Written(), bytes);
  }

  /** The bytes used by the bits written, and nothing but zeros after them. */
  lemma WrittenBytes(s: seq<bv8>, bits: seq<Bit>, bytes: nat)
    requires |s| >= BUFFER_SIZE && |bits| <= MAX_ENCODE_BITS && bits == BitsOf(s)[..|bits|]
    requires 8 * bytes - 8 < |bits| <= 8 * bytes
    requires forall i :: |bits| <= i < MAX_ENCODE_BITS ==> BitAt(s, i) == 0
    ensures bytes <= BUFFER_SIZE && Holds(s[..bytes], bits)
    ensures forall j :: bytes <= j < BUFFER_SIZE ==> s[j] == 0
  {
    forall i | 0 <= i < 8 * bytes ensures BitAt(s[..bytes], i) == BitAt(s, i) {
    }
    assert BitsOf(s[..bytes]) == bits + Repeat(0, 8 * bytes - |bits|);
    forall j | bytes <= j < BUFFER_SIZE ensures s[j] == 0 {
      ZeroByte(s, j);
    }
  }

  lemma LimitReached(msg: seq<Symbol>, syms: seq<Symbol>)
    requires syms <= msg + [EOF] && |EncodeSymbols(syms).bits| > MAX_ENCODE_BITS
    ensures |EncodeBits(msg)| > MAX_ENCODE_BITS
  {
    var full := msg + [EOF];
    assert full[..|syms|] == syms;
    BitsOnlyGrow(full, |syms|, EncodeSymbols(full));
  }

  lemma BitsOnlyGrow(full: seq<Symbol>, i: nat, last: Encoder)
    requires i <= |full| && last == EncodeSymbols(full)
    ensures |EncodeSymbols(full[..i]).bits| < |Flush(last)|
  {
    SymbolsExtend(full, i);
  }

  lemma ZeroByte(s: seq<bv8>, j: nat)
    requires j < |s| && forall k :: 8 * j <= k < 8 * j + 8 ==> BitAt(s, k) == 0
    ensures s[j] == 0
  {
    assert BitAt(s, 8 * j) == 0 && BitAt(s, 8 * j + 1) == 0 && BitAt(s, 8 * j + 2) == 0 && BitAt(s, 8 * j + 3) == 0;
    assert BitAt(s, 8 * j + 4) == 0 && BitAt(s, 8 * j + 5) == 0 && BitAt(s, 8 * j + 6) == 0 && BitAt(s, 8 * j + 7) == 0;
    AllBitsClear(s[j]);
  }

  lemma AllBitsClear(b: bv8)
    requires b & 0x80 == 0 && b & 0x40 == 0 && b & 0x20 == 0 && b & 0x10 == 0
    requires b & 0x08 == 0 && b & 0x04 == 0 && b & 0x02 == 0 && b & 0x01 == 0
    ensures b == 0
  {
  }

  // ------------------------------------------------------------------ decode

  /** The text of decoded symbols. */
  function TextOf(syms: seq<Symbol>): (r: string)
    ensures |r| == |syms| && |SYMBOLS| == NUM_SYMBOLS
    ensures forall i :: 0 <= i < |syms| ==> r[i] == SYMBOLS[syms[i]]
  {
    SymbolsInOrder();
    seq(|syms|, i requires 0 <= i < |syms| => SYMBOLS[syms[i]])
  }

  lemma TextRoundTrip(msg: string)
    requires AllPrintable(msg)
    ensures TextOf(SymbolsOf(msg)) == msg && EOF !in SymbolsOf(msg)
  {
    SymbolsInOrder();
    forall i | 0 <= i < |msg| ensures SYMBOLS[SymbolOf(msg[i])] == msg[i] && SymbolsOf(msg)[i] != EOF {
    }
  }

  /** Refills the register after narrowing; false once the reader gives up. */
  method DecoderRenormalise(br: BitReader, low0: nat, high0: nat, value0: nat)
      returns (ok: bool, low: nat, high: nat, value: nat)
    requires br.Valid() && Interval(low0, high0).Valid() && low0 <= value0 <= high0
    modifies br
    ensures var d := Decoder(Interval(low0, high0), value0, old(br.Taken()));
      match DecoderRenorm(d, br.Bits())
      case None => !ok
      case Some(d') => ok && br.Valid() && d' == Decoder(Interval(low, high), value, br.Taken())
  {
    low, high, value := low0, high0, value0;
    ghost var target := DecoderRenorm(Decoder(Interval(low, high), value, br.Taken()), br.Bits());
    while true
      invariant br.Valid() && Interval(low, high).Valid() && low <= value <= high
      invariant DecoderRenorm(Decoder(Interval(low, high), value, br.Taken()), br.Bits()) == target
      decreases MAX_CODE + 1 - (high - low)
    {
      ghost var d := Decoder(Interval(low, high), value, br.Taken());
      if high < HALF {
        // nothing to subtract
      } else if low >= HALF {
        value := value - HALF;
        low := low - HALF;
        high := high - HALF;
      } else if low >= QUARTER && high < THREE_QUARTERS {
        value := value - QUARTER;
        low := low - QUARTER;
        high := high - QUARTER;
      } else {
        break;
      }
      low := 2 * low;
      high := 2 * high + 1;
      var b := br.ReadBit();
      if b < 0 {
        ok := false;
        return;
      }
      value := 2 * value + b;
      assert Decoder(Interval(low, high), value, br.Taken()) == DecoderShift(d, br.Bits());
    }
    ok := true;
  }

  /** The linear search of the cumulative table; it always finds its symbol, and the
      register stays inside that symbol's slice. */
  method MatchSymbol(low: nat, high: nat, value: nat) returns (sym: Symbol)
    requires Interval(low, high).Settled() && low <= value <= high
    ensures forall pos :: sym == PickSymbol(Decoder(Interval(low, high), value, pos))
    ensures var n := Narrow(Interval(low, high), sym); n.low <= value <= n.high && n.Offset().Some?
  {
    var range := high - low + 1;
    var scaled := ((value - low + 1) * NUM_SYMBOLS - 1) / range;
    PickSymbolFits(Decoder(Interval(low, high), value, 0));
    sym := 0;
    while !(CumFreq(sym) <= scaled < CumFreq(sym + 1))
      invariant sym <= scaled
      decreases NUM_SYMBOLS - sym
    {
      sym := sym + 1;
    }
  }

  /** A NUL-terminated string in a buffer. */
  ghost predicate HoldsText(buf: seq<char>, text: string) {
    |text| < |buf| && buf[..|text|] == text && buf[|text|] == '\0'
  }

  /** -1 and 0 as in the original; an empty message counts as a failure. */
  method ArithmeticDecode(input: seq<bv8>, maxLen: nat, output: array<char>, maxOutput: int) returns (rc: int)
    requires maxLen <= |input| && maxOutput <= output.Length
    modifies output
    ensures maxOutput <= 0 ==> rc == -1 && output[..] == old(output[..])
    ensures maxOutput == 1 ==> rc == -1 && HoldsText(output[..], "")
    ensures maxOutput >= 2 ==>
      match Decode(Stream(input[..maxLen]), maxOutput - 1)
      case None => rc == -1 && output[..] == old(output[..])
      case Some(syms) => HoldsText(output[..], TextOf(syms)) && rc == if syms == [] then -1 else 0
    ensures maxOutput >= 0 ==> output[maxOutput..] == old(output[maxOutput..])
  {
    if maxOutput <= 0 {
      return -1;
    }
    if maxOutput == 1 {
      output[0] := '\0';
      return -1;
    }
    var br := new BitReader(input, maxLen);
    ghost var bits := br.Bits();
    var low, high, value := 0, MAX_CODE, 0;
    var i := 0;
    while i < 32
      invariant 0 <= i <= 32 && i <= |bits| && br.Valid() && br.Taken() == i && fresh(br)
      invariant br.buffer == input && br.length == maxLen && br.Bits() == bits
      invariant value == Value(bits[..i])
      invariant output[..] == old(output[..])
    {
      var b := br.ReadBit();
      if b < 0 {
        return -1;
      }
      ValuePrefixStep(bits, i);
      value := 2 * value + b;
      i := i + 1;
    }
    ValueBound(bits[..32]);
    Pow32();
    rc := DecodeLoop(br, value, output, maxOutput);
  }

  method DecodeOne(br: BitReader, low0: nat, high0: nat, value0: nat, sym: Symbol)
      returns (ok: bool, low: nat, high: nat, value: nat)
    requires br.Valid() && Interval(low0, high0).Settled()
    requires var n := Narrow(Interval(low0, high0), sym); n.low <= value0 <= n.high
    modifies br
    ensures var d := Decoder(Narrow(Interval(low0, high0), sym), value0, old(br.Taken()));
      match DecoderRenorm(d, br.Bits())
      case None => !ok
      case Some(d') => ok && br.Valid() && d' == Decoder(Interval(low, high), value, br.Taken())
  {
    var range := high0 - low0 + 1;
    ghost var n := Narrow(Interval(low0, high0), sym);
    high := low0 + range * CumFreq(sym + 1) / NUM_SYMBOLS - 1;
    low := low0 + range * CumFreq(sym) / NUM_SYMBOLS;
    assert Interval(low, high) == n;
    ok, low, high, value := DecoderRenormalise(br, low, high, value0);
  }

  /** Writes the symbol and moves on to the next. */
  method PutAndDecode(br: BitReader, low0: nat, high0: nat, value0: nat, sym: Symbol, output: array<char>, outpos: nat)
      returns (ok: bool, low: nat, high: nat, value: nat)
    requires br.Valid() && Interval(low0, high0).Settled() && outpos < output.Length
    requires var n := Narrow(Interval(low0, high0), sym); n.low <= value0 <= n.high
    modifies br, output
    ensures var d := Decoder(Narrow(Interval(low0, high0), sym), value0, old(br.Taken()));
      match DecoderRenorm(d, br.Bits())
      case None => !ok
      case Some(d') => ok && br.Valid() && d' == Decoder(Interval(low, high), value, br.Taken())
    ensures output[..] == old(output[..])[outpos := SYMBOLS[sym]]
  {
    output[outpos] := SYMBOLS[sym];
    ok, low, high, value := DecodeOne(br, low0, high0, value0, sym);
  }

  method DecodeLoop(br: BitReader, value0: nat, output: array<char>, maxOutput: int) returns (rc: int)
    requires br.Valid() && value0 <= MAX_CODE && 2 <= maxOutput <= output.Length
    modifies br, output
    ensures var syms := DecodeFrom(Decoder(FULL, value0, old(br.Taken())), br.Bits(), maxOutput - 1, []);
      HoldsText(output[..], TextOf(syms)) && rc == if syms == [] then -1 else 0
    ensures output[maxOutput..] == old(output[maxOutput..])
  {
    var low, high, value, outpos := 0, MAX_CODE, value0, 0;
    ghost var out: seq<Symbol> := [];
    ghost var cap := maxOutput - 1;
    ghost var target := DecodeFrom(Decoder(FULL, value0, br.Taken()), br.Bits(), cap, []);
    SymbolsInOrder();
    while true
      invariant br.Valid() && 0 <= low <= value <= high && Interval(low, high).Settled()
      invariant 0 <= outpos == |out| <= cap && TextSoFar(output[..], out)
      invariant output[maxOutput..] == old(output[maxOutput..])
      invariant DecodeFrom(Decoder(Interval(low, high), value, br.Taken()), br.Bits(), cap, out) == target
      decreases |br.Bits()| - br.Taken()
    {
      var sym := MatchSymbol(low, high, value);
      if SYMBOLS[sym] == '\0' || outpos >= maxOutput - 1 {
        break;
      }
      var ok;
      ok, low, high, value := PutAndDecode(br, low, high, value, sym, output, outpos);
      outpos := outpos + 1;
      out := out + [sym];
      if !ok {
        break;
      }
    }
    EndText(output, outpos, out);
    rc := if outpos == 0 then -1 else 0;
  }

  /** The buffer begins with the characters of `out`. */
  predicate TextSoFar(buf: seq<char>, out: seq<Symbol>) {
    |out| <= |buf| && forall k :: 0 <= k < |out| ==> buf[k] == SYMBOLS[out[k]]
  }

  method EndText(output: array<char>, outpos: nat, ghost out: seq<Symbol>)
    requires outpos == |out| < output.Length && TextSoFar(output[..], out)
    modifies output
    ensures HoldsText(output[..], TextOf(out)) && output[outpos + 1..] == old(output[outpos + 1..])
  {
    output[outpos] := '\0';
    assert output[..outpos] == TextOf(out);
  }

  // ------------------------------------------------------------------ the law of the coder

  /** Decoding a buffer that starts with the encoded bytes, exactly or followed by anything,
      returns the message, cut to the output's room. */
  lemma RoundTrip(msg: string, encoded: seq<bv8>, input: seq<bv8>, cap: nat)
    requires AllPrintable(msg) && msg != ""
    requires Holds(encoded, EncodeBits(SymbolsOf(msg))) && encoded <= input
    ensures Decode(Stream(input), cap) == Some(SymbolsOf(msg)[..Min(|msg|, cap)])
    ensures TextOf(SymbolsOf(msg)[..Min(|msg|, cap)]) == msg[..Min(|msg|, cap)]
  {
    var syms := SymbolsOf(msg);
    var f := EncodeBits(syms);
    TextRoundTrip(msg);
    EncodedLength(syms);
    StreamStartsWith(encoded, input, f);
    RoundTripBits(syms, Stream(input), cap);
    assert TextOf(syms[..Min(|msg|, cap)]) == TextOf(syms)[..Min(|msg|, cap)];
  }

  lemma StreamStartsWith(encoded: seq<bv8>, input: seq<bv8>, bits: seq<Bit>)
    requires Holds(encoded, bits) && encoded <= input
    ensures bits <= Stream(input) && |Stream(input)| >= |bits| + 23
  {
    assert BitsOf(encoded) <= BitsOf(input) by {
      forall i | 0 <= i < 8 * |encoded| ensures BitAt(encoded, i) == BitAt(input, i) {
      }
    }
    assert bits <= BitsOf(encoded);
  }

  /** The empty message is the one that does not come back: nothing decodes to rc 0. */
  lemma EmptyMessage(encoded: seq<bv8>, input: seq<bv8>, cap: nat)
    requires Holds(encoded, EncodeBits([])) && encoded <= input
    ensures Decode(Stream(input), cap) in {None, Some([])}
  {
    StreamStartsWith(encoded, input, EncodeBits([]));
    if |Stream(input)| >= 32 {
      RoundTripBits([], Stream(input), cap);
    }
  }

  /** Messages short enough for the buffer never hit the writer's limit. */
  lemma ShortMessagesFit(msg: string)
    requires AllPrintable(msg) && |msg| <= 5460
    ensures |EncodeBits(SymbolsOf(msg))| <= MAX_ENCODE_BITS
  {
    EncodedLength(SymbolsOf(msg));
  }
}
