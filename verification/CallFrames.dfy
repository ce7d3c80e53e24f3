/** The CALL, ACCEPT and CQ frames of datalink_arq/arq_protocol.c: a 14-byte control frame
    that carries a callsign compressed by the arithmetic coder. */
module CallFrames {
  import opened Common
  import opened BitStrings
  import opened CoderSpec
  import opened CoderProofs
  import opened Coder
  import opened Framer
  import opened SlotLimit

  const CALLSIGN_MAX_SIZE: nat := 16
  const CONNECT_PAYLOAD_IDX: nat := 2
  const CONNECT_MAX_ENCODED: nat := CONTROL_FRAME_SIZE - 2
  const DST_CRC_SIZE: nat := 2
  const SRC_MAX_ENCODED: nat := CONNECT_MAX_ENCODED - DST_CRC_SIZE
  const CQ_PAYLOAD_IDX: nat := 1
  const CQ_SRC_MAX_ENCODED: nat := CONTROL_FRAME_SIZE - CQ_PAYLOAD_IDX
  const SESSION_MASK: bv8 := 0x7F
  const ACCEPT_FLAG: bv8 := 0x80

  // ------------------------------------------------------------------ bandwidth

  /** 0 stands for "no token", as in the original. */
  function BandwidthToken(hz: int): bv8 {
    if hz == 500 then 1 else if hz == 2300 then 2 else if hz == 2750 then 3 else 0
  }

  function BandwidthHz(token: bv8): int {
    if token == 1 then 500 else if token == 2 then 2300 else if token == 3 then 2750 else 0
  }

  lemma BandwidthRoundTrip(packetType: bv8, hz: int)
    requires packetType < 8 && BandwidthToken(hz) != 0
    ensures var header := FrameHeader(packetType, BandwidthToken(hz));
      HeaderPacketType(header) == packetType && BandwidthHz(HeaderExtension(header)) == hz
  {
    HeaderRoundTrip(packetType, BandwidthToken(hz));
  }

  // ------------------------------------------------------------------ callsigns

  function Upper(c: char): char {
    if 'a' <= c <= 'z' then c - 'a' + 'A' else c
  }

  /** The callsign as it goes on the air: cut to 15 characters, in upper case. */
  function Normalised(call: string): (r: string)
    ensures |r| == Min(|call|, CALLSIGN_MAX_SIZE - 1)
    ensures forall i :: 0 <= i < |r| ==> r[i] == Upper(call[i])
  {
    seq(Min(|call|, CALLSIGN_MAX_SIZE - 1), i requires 0 <= i < |call| => Upper(call[i]))
  }

  method NormaliseCallsign(call: string) returns (upper: string)
    ensures upper == Normalised(call) && InUpperCase(upper, call[..Min(|call|, 15)])
  {
    upper := [];
    var n := 0;
    while n < |call| && n < CALLSIGN_MAX_SIZE - 1
      invariant 0 <= n <= |call| && n <= CALLSIGN_MAX_SIZE - 1 && |upper| == n
      invariant forall i :: 0 <= i < n ==> upper[i] == Upper(call[i])
    {
      var c := call[n];
      if 'a' <= c <= 'z' {
        c := c - 'a' + 'A';
      }
      upper := upper + [c];
      n := n + 1;
    }
    NormalisedIsUpperCase(call);
  }

  lemma NormalisedHasNoNul(call: string)
    requires '\0' !in call
    ensures '\0' !in Normalised(call)
  {
    forall i | 0 <= i < |Normalised(call)| ensures Normalised(call)[i] != '\0' {
      assert call[i] in call;
    }
  }

  /** What a callsign may consist of, in either case. */
  predicate CallsignChar(c: char) { 'A' <= c <= 'Z' || 'a' <= c <= 'z' || '0' <= c <= '9' || c == '-' }

  /** Its first 15 characters are all of those. */
  predicate Acceptable(call: string) { forall i :: 0 <= i < |call| && i < 15 ==> CallsignChar(call[i]) }

  /** `text` is `call` with each lower-case letter, and nothing else, raised by 32. */
  predicate InUpperCase(text: string, call: string) {
    |text| == |call| && forall i :: 0 <= i < |call| ==>
      text[i] as int == if 'a' <= call[i] <= 'z' then call[i] as int - 32 else call[i] as int
  }

  lemma NormalisedIsUpperCase(call: string)
    ensures InUpperCase(Normalised(call), call[..Min(|call|, 15)])
    ensures AllPrintable(Normalised(call)) <==> Acceptable(call)
  {
    var n := Normalised(call);
    forall i | 0 <= i < |n| ensures Printable(n[i]) <==> CallsignChar(call[i]) {
    }
    if Acceptable(call) {
      forall i | 0 <= i < |n| ensures Printable(n[i]) {
        assert CallsignChar(call[i]);
      }
    }
    if AllPrintable(n) {
      forall i | 0 <= i < |call| && i < 15 ensures CallsignChar(call[i]) {
        assert Printable(n[i]);
      }
    }
  }

  /** The encoding of a callsign, cut to `cap` bytes. */
  ghost predicate IsCutEncoding(bytes: seq<bv8>, call: string, cap: nat)
    requires AllPrintable(Normalised(call))
  {
    exists whole :: Holds(whole, EncodeBits(SymbolsOf(Normalised(call)))) && bytes == whole[..Min(|whole|, cap)]
  }

  /** Encodes a callsign into at most `cap` bytes, dropping what does not fit; empty on failure. */
  method EncodeCallsign(call: string, cap: nat) returns (bytes: seq<bv8>)
    requires '\0' !in call
    ensures |bytes| <= cap
    ensures bytes != [] ==> AllPrintable(Normalised(call))
    ensures AllPrintable(Normalised(call)) && cap > 0 ==> bytes != [] && IsCutEncoding(bytes, call, cap)
  {
    var tmp := new bv8[BUFFER_SIZE];
    var upper := NormaliseCallsign(call);
    NormalisedHasNoNul(call);
    var r := ArithmeticEncode(upper, tmp);
    if AllPrintable(upper) {
      ShortMessagesFit(upper);
      EncodedLength(SymbolsOf(upper));
    }
    if !r.Encoded? || r.bytes == 0 {
      return [];
    }
    var n := if r.bytes > cap then cap else r.bytes;
    bytes := tmp[..n];
    assert bytes == tmp[..r.bytes][..Min(|tmp[..r.bytes]|, cap)];
  }

  // ------------------------------------------------------------------ CALL and ACCEPT

  /** What a frame built for `call` and `dstCrc` looks like. */
  ghost predicate IsCallFrame(frame: seq<bv8>, isAccept: bool, sessionId: bv8, call: string, dstCrc: bv16, bwHz: int) {
    && |frame| == CONTROL_FRAME_SIZE
    && frame[0] == FrameHeader(PACKET_TYPE_ARQ_CALL, BandwidthToken(bwHz))
    && frame[1] == (sessionId & SESSION_MASK) | (if isAccept then ACCEPT_FLAG else 0)
    && frame[2] == (dstCrc & 0xFF) as bv8 && frame[3] == (dstCrc >> 8) as bv8
    && AllPrintable(Normalised(call))
    && HoldsCallsign(frame[4..], call)
  }

  /** A slot holds the encoding of a callsign, cut to its size and zero-padded. */
  ghost predicate HoldsCallsign(slot: seq<bv8>, call: string)
    requires AllPrintable(Normalised(call))
  {
    exists whole ::
      && Holds(whole, EncodeBits(SymbolsOf(Normalised(call))))
      && slot[..Min(|whole|, |slot|)] == whole[..Min(|whole|, |slot|)]
      && forall i :: |whole| <= i < |slot| ==> slot[i] == 0
  }

  lemma CutEncodingFills(slot: seq<bv8>, bytes: seq<bv8>, call: string)
    requires AllPrintable(Normalised(call)) && IsCutEncoding(bytes, call, |slot|)
    requires bytes <= slot && forall i :: |bytes| <= i < |slot| ==> slot[i] == 0
    ensures HoldsCallsign(slot, call)
  {
  }

  /** memset: clears the first `n` bytes. */
  method Clear(buf: array<bv8>, n: nat)
    requires n <= buf.Length
    modifies buf
    ensures forall i :: 0 <= i < n ==> buf[i] == 0
    ensures forall i :: n <= i < buf.Length ==> buf[i] == old(buf[i])
  {
    forall i | 0 <= i < n {
      buf[i] := 0;
    }
  }

  /** memcpy: puts `bytes` at offset `at`. */
  method Copy(buf: array<bv8>, at: nat, bytes: seq<bv8>)
    requires at + |bytes| <= buf.Length
    modifies buf
    ensures forall i :: 0 <= i < buf.Length ==>
      buf[i] == if at <= i < at + |bytes| then bytes[i - at] else old(buf[i])
  {
    forall i | at <= i < at + |bytes| {
      buf[i] := bytes[i - at];
    }
  }

  method PutCallFrame(buf: array<bv8>, meta: bv8, dstCrc: bv16, token: bv8, encoded: seq<bv8>)
    requires buf.Length >= CONTROL_FRAME_SIZE && |encoded| <= SRC_MAX_ENCODED
    modifies buf
    ensures buf[0] == FrameHeader(PACKET_TYPE_ARQ_CALL, token) && buf[1] == meta
    ensures buf[2] == (dstCrc & 0xFF) as bv8 && buf[3] == (dstCrc >> 8) as bv8
    ensures forall i :: 4 <= i < CONTROL_FRAME_SIZE ==> buf[i] == if i - 4 < |encoded| then encoded[i - 4] else 0
    ensures forall i :: CONTROL_FRAME_SIZE <= i < buf.Length ==> buf[i] == old(buf[i])
  {
    Clear(buf, CONTROL_FRAME_SIZE);
    buf[1] := meta;
    buf[2] := (dstCrc & 0xFF) as bv8;
    buf[3] := (dstCrc >> 8) as bv8;
    Copy(buf, CONNECT_PAYLOAD_IDX + DST_CRC_SIZE, encoded);
    buf[0] := FrameHeader(PACKET_TYPE_ARQ_CALL, token);
  }

  /** -1, or the frame size with the frame in `buf`. `dstCrc` is the CRC-16 of the
      destination callsign. */
  method BuildCallAccept(buf: array<bv8>, isAccept: bool, sessionId: bv8, src: string, dstCrc: bv16, bwHz: int)
      returns (rc: int)
    requires '\0' !in src
    modifies buf
    ensures rc == CONTROL_FRAME_SIZE || rc == -1
    ensures rc == -1 <==> buf.Length < 14 || (bwHz != 500 && bwHz != 2300 && bwHz != 2750) || !Acceptable(src)
    ensures rc == -1 ==> buf[..] == old(buf[..])
    ensures rc != -1 ==> IsCallFrame(buf[..CONTROL_FRAME_SIZE], isAccept, sessionId, src, dstCrc, bwHz)
    ensures rc != -1 ==> buf[CONTROL_FRAME_SIZE..] == old(buf[CONTROL_FRAME_SIZE..])
  {
    NormalisedIsUpperCase(src);
    if buf.Length < CONTROL_FRAME_SIZE {
      return -1;
    }
    var token := BandwidthToken(bwHz);
    if token == 0 {
      return -1;
    }
    var encoded := EncodeCallsign(src, SRC_MAX_ENCODED);
    if encoded == [] {
      return -1;
    }
    PutCallFrame(buf, (sessionId & SESSION_MASK) | (if isAccept then ACCEPT_FLAG else 0), dstCrc, token, encoded);
    ghost var slot := buf[..CONTROL_FRAME_SIZE][4..];
    assert forall i :: 0 <= i < |slot| ==> slot[i] == buf[4 + i];
    CutEncodingFills(slot, encoded, src);
    rc := CONTROL_FRAME_SIZE;
  }

  datatype Parsed = Rejected | Parsed(sessionId: bv8, call: string, bwHz: int)

  /** What a slot decodes to; None where the decoder reports failure. */
  function DecodeSlot(slot: seq<bv8>): Option<string> {
    match Decode(Stream(slot), CALLSIGN_MAX_SIZE - 1)
    case None => None
    case Some(syms) => if syms == [] then None else Some(TextOf(syms))
  }

  method DecodeCallsign(slot: seq<bv8>) returns (r: Option<string>)
    ensures r == DecodeSlot(slot)
  {
    var out := new char[CALLSIGN_MAX_SIZE](_ => '\0');
    var rc := ArithmeticDecode(slot, |slot|, out, CALLSIGN_MAX_SIZE);
    assert slot[..|slot|] == slot;
    if rc < 0 {
      return None;
    }
    out[CALLSIGN_MAX_SIZE - 1] := '\0';
    ghost var text := DecodeSlot(slot).value;
    var n := 0;
    while out[n] != '\0'
      invariant 0 <= n <= |text| && forall k :: 0 <= k < n ==> out[k] != '\0'
      decreases |text| - n
    {
      n := n + 1;
    }
    r := Some(out[..n]);
    DecodedHasNoNul(slot);
    assert n == |text|;
  }

  lemma DecodedHasNoNul(slot: seq<bv8>)
    requires DecodeSlot(slot).Some?
    ensures '\0' !in DecodeSlot(slot).value
  {
    var stream := Stream(slot);
    ValueBound(stream[..32]);
    Pow32();
    NeverEof(Decoder(FULL, Value(stream[..32]), 32), stream, CALLSIGN_MAX_SIZE - 1, []);
    SymbolsInOrder();
  }

  lemma {:induction false} NeverEof(d: Decoder, stream: seq<Bit>, cap: nat, out: seq<Symbol>)
    requires d.Valid(stream) && d.iv.Settled() && EOF !in out
    ensures EOF !in DecodeFrom(d, stream, cap, out)
    decreases |stream| - d.pos
  {
    PickSymbolFits(d);
    var sym := PickSymbol(d);
    if sym != EOF && |out| < cap {
      var next := DecoderRenorm(d.(iv := Narrow(d.iv, sym)), stream);
      if next.Some? {
        NeverEof(next.value, stream, cap, out + [sym]);
      }
    }
  }

  function ParsedCallFrame(frame: seq<bv8>): Parsed {
    if |frame| < CONTROL_FRAME_SIZE || BandwidthHz(HeaderExtension(frame[0])) == 0 then Rejected
    else
      match DecodeSlot(frame[4..CONTROL_FRAME_SIZE])
      case None => Rejected
      case Some(call) => Parsed(frame[1] & SESSION_MASK, call, BandwidthHz(HeaderExtension(frame[0])))
  }

  method ParseCallAccept(buf: seq<bv8>) returns (r: Parsed)
    ensures r == ParsedCallFrame(buf)
  {
    if |buf| < CONTROL_FRAME_SIZE {
      return Rejected;
    }
    var bwHz := BandwidthHz(HeaderExtension(buf[0]));
    if bwHz == 0 {
      return Rejected;
    }
    var sessionId := buf[1] & SESSION_MASK;
    var payload := buf[CONNECT_PAYLOAD_IDX..CONNECT_PAYLOAD_IDX + CONNECT_MAX_ENCODED];
    var call := DecodeCallsign(payload[DST_CRC_SIZE..]);
    assert payload[DST_CRC_SIZE..] == buf[4..CONTROL_FRAME_SIZE];
    r := if call.None? then Rejected else Parsed(sessionId, call.value, bwHz);
  }

  /** A slot that has room for the whole encoding gives the callsign back. */
  lemma SlotRoundTrip(slot: seq<bv8>, call: string)
    requires AllPrintable(Normalised(call)) && call != "" && HoldsCallsign(slot, call)
    requires |EncodeBits(SymbolsOf(Normalised(call)))| <= 8 * |slot|
    ensures DecodeSlot(slot) == Some(Normalised(call))
  {
    var msg := Normalised(call);
    var bits := EncodeBits(SymbolsOf(msg));
    var whole :| Holds(whole, bits) && slot[..Min(|whole|, |slot|)] == whole[..Min(|whole|, |slot|)]
      && forall i :: |whole| <= i < |slot| ==> slot[i] == 0;
    WholeEncodingDecodes(slot, whole, msg);
  }

  lemma WholeEncodingDecodes(slot: seq<bv8>, whole: seq<bv8>, msg: string)
    requires AllPrintable(msg) && msg != "" && |msg| < CALLSIGN_MAX_SIZE && Holds(whole, EncodeBits(SymbolsOf(msg)))
    requires |EncodeBits(SymbolsOf(msg))| <= 8 * |slot|
    requires slot[..Min(|whole|, |slot|)] == whole[..Min(|whole|, |slot|)]
    ensures DecodeSlot(slot) == Some(msg)
  {
    assert |whole| <= |slot|;
    assert whole == slot[..|whole|];
    RoundTrip(msg, whole, slot, CALLSIGN_MAX_SIZE - 1);
    assert msg[..Min(|msg|, CALLSIGN_MAX_SIZE - 1)] == msg;
  }

  /** How many slot bytes a callsign of each length may need. */
  lemma CallsignFits(call: string)
    requires AllPrintable(Normalised(call)) && call != ""
    ensures |call| <= 14 ==> |EncodeBits(SymbolsOf(Normalised(call)))| <= 8 * SRC_MAX_ENCODED
    ensures |EncodeBits(SymbolsOf(Normalised(call)))| <= 8 * CQ_SRC_MAX_ENCODED
  {
    EncodedLength(SymbolsOf(Normalised(call)));
  }

  /** A slot of ten bytes never gives back more than fourteen characters. */
  lemma SlotGivesFourteen(slot: seq<bv8>)
    requires |slot| == SRC_MAX_ENCODED
    ensures DecodeSlot(slot).Some? ==> |DecodeSlot(slot).value| <= 14
  {
    SlotHoldsFourteen(Stream(slot), CALLSIGN_MAX_SIZE - 1);
  }

  /** The type and the bandwidth share the first byte: 500, 2300 and 2750 Hz are 1, 2 and 3. */
  function FirstByte(packetType: bv8, bwHz: int): bv8 {
    packetType * 32 + if bwHz == 500 then 1 else if bwHz == 2300 then 2 else 3
  }

  /** parse of build: the callsign comes back in upper case, with the low seven bits of the
      session id and the bandwidth, exactly when it has at most 14 characters. */
  lemma CallRoundTrip(frame: seq<bv8>, isAccept: bool, sessionId: bv8, call: string, dstCrc: bv16, bwHz: int)
    requires IsCallFrame(frame, isAccept, sessionId, call, dstCrc, bwHz)
    requires BandwidthToken(bwHz) != 0 && call != ""
    ensures var r := ParsedCallFrame(frame);
      r.Parsed? && r.sessionId == sessionId & 0x7F && r.bwHz == bwHz && InUpperCase(r.call, call) <==> |call| <= 14
    ensures (frame[1] & ACCEPT_FLAG != 0) <==> isAccept
    ensures HeaderPacketType(frame[0]) == PACKET_TYPE_ARQ_CALL && frame[0] == FirstByte(2, bwHz)
    ensures (frame[2] as bv16) | ((frame[3] as bv16) << 8) == dstCrc
  {
    ParsesSlot(frame, isAccept, sessionId, call, dstCrc, bwHz);
    SessionBits(sessionId);
    CrcBytes(dstCrc);
    SlotGivesCall(frame[4..], call);
  }

  /** A slot of ten bytes gives a callsign back exactly if it has at most 14 characters. */
  lemma SlotGivesCall(slot: seq<bv8>, call: string)
    requires |slot| == SRC_MAX_ENCODED && call != "" && AllPrintable(Normalised(call)) && HoldsCallsign(slot, call)
    ensures DecodeSlot(slot).Some? && InUpperCase(DecodeSlot(slot).value, call) <==> |call| <= 14
  {
    if |call| <= 14 {
      NormalisedIsUpperCase(call);
      assert call[..Min(|call|, 15)] == call;
      CallsignFits(call);
      SlotRoundTrip(slot, call);
    } else {
      SlotGivesFourteen(slot);
    }
  }

  lemma ParsesSlot(frame: seq<bv8>, isAccept: bool, sessionId: bv8, call: string, dstCrc: bv16, bwHz: int)
    requires IsCallFrame(frame, isAccept, sessionId, call, dstCrc, bwHz) && BandwidthToken(bwHz) != 0
    ensures HeaderPacketType(frame[0]) == PACKET_TYPE_ARQ_CALL && frame[0] == FirstByte(2, bwHz)
    ensures ParsedCallFrame(frame) ==
      match DecodeSlot(frame[4..])
      case None => Rejected
      case Some(text) => Parsed(sessionId & SESSION_MASK, text, bwHz)
  {
    BandwidthRoundTrip(PACKET_TYPE_ARQ_CALL, bwHz);
    assert frame[4..CONTROL_FRAME_SIZE] == frame[4..];
    SessionBits(sessionId);
  }

  const FIFTEEN: string := "AAAAAAAAAAAAAAA"
  const FOURTEEN: string := "AAAAAAAAAAAAAA"

  /** A callsign of 15 characters that loses its last on the way. */
  lemma FifteenLosesOne(frame: seq<bv8>, isAccept: bool, sessionId: bv8, dstCrc: bv16, bwHz: int)
    requires IsCallFrame(frame, isAccept, sessionId, FIFTEEN, dstCrc, bwHz) && BandwidthToken(bwHz) != 0
    ensures ParsedCallFrame(frame) == Parsed(sessionId & SESSION_MASK, FOURTEEN, bwHz)
  {
    ParsesSlot(frame, isAccept, sessionId, FIFTEEN, dstCrc, bwHz);
    FifteenInSlot(frame[4..]);
  }

  lemma FifteenInSlot(slot: seq<bv8>)
    requires |slot| == SRC_MAX_ENCODED && AllPrintable(Normalised(FIFTEEN)) && HoldsCallsign(slot, FIFTEEN)
    ensures DecodeSlot(slot) == Some(FOURTEEN)
  {
    SymbolsOfFifteen(15);
    var whole :| Holds(whole, EncodeBits(SymbolsOf(Normalised(FIFTEEN))))
      && slot[..Min(|whole|, |slot|)] == whole[..Min(|whole|, |slot|)];
    SlotOfZeros(slot, whole, EncodeBits(SymbolsOf(Normalised(FIFTEEN))));
    AsText();
  }

  lemma SymbolsOfFifteen(n: nat)
    requires n == 15 && AllPrintable(Normalised(FIFTEEN))
    ensures SymbolsOf(Normalised(FIFTEEN)) == As(n)
    ensures var bits := EncodeBits(SymbolsOf(Normalised(FIFTEEN))); Repeat(0, 78) <= bits && |bits| >= 80
  {
    FifteenAsAreZeros(n);
    assert SymbolsOf(Normalised(FIFTEEN)) == As(n);
  }

  lemma SlotOfZeros(slot: seq<bv8>, whole: seq<bv8>, bits: seq<Bit>)
    requires |slot| == SRC_MAX_ENCODED && Holds(whole, bits) && Repeat(0, 78) <= bits && |bits| >= 80
    requires slot[..Min(|whole|, |slot|)] == whole[..Min(|whole|, |slot|)]
    ensures Decode(Stream(slot), CALLSIGN_MAX_SIZE - 1) == Some(As(14))
  {
    StartsLike(slot, whole, bits, 78);
    assert Repeat(0, 78) <= Stream(slot);
    ZerosDecode(Stream(slot));
  }

  /** A slot cut from an encoding starts with the same bits. */
  lemma StartsLike(slot: seq<bv8>, whole: seq<bv8>, bits: seq<Bit>, n: nat)
    requires Holds(whole, bits) && |slot| <= |whole| && slot == whole[..|slot|] && n <= |bits| && n <= 8 * |slot|
    ensures Stream(slot)[..n] == bits[..n]
  {
    forall i | 0 <= i < n ensures Stream(slot)[i] == bits[i] {
      assert BitAt(slot, i) == BitAt(whole, i);
      assert BitsOf(whole)[i] == bits[i];
    }
  }

  lemma AsText()
    ensures As(14) != [] && TextOf(As(14)) == FOURTEEN
  {
    SymbolsInOrder();
  }

  lemma SessionBits(s: bv8)
    ensures (s & SESSION_MASK) & SESSION_MASK == s & SESSION_MASK
    ensures ((s & SESSION_MASK) | ACCEPT_FLAG) & SESSION_MASK == s & SESSION_MASK
    ensures ((s & SESSION_MASK) | ACCEPT_FLAG) & ACCEPT_FLAG == ACCEPT_FLAG && (s & SESSION_MASK) & ACCEPT_FLAG == 0
    ensures (s & SESSION_MASK) | 0 == s & SESSION_MASK
  {
  }

  lemma CrcBytes(crc: bv16)
    ensures ((crc & 0xFF) as bv8) as bv16 | ((((crc >> 8) as bv8) as bv16) << 8) == crc
  {
  }

  // ------------------------------------------------------------------ CQ

  ghost predicate IsCqFrame(frame: seq<bv8>, call: string, bwHz: int) {
    && |frame| == CONTROL_FRAME_SIZE
    && frame[0] == FrameHeader(PACKET_TYPE_ARQ_CQ, BandwidthToken(bwHz))
    && AllPrintable(Normalised(call))
    && HoldsCallsign(frame[CQ_PAYLOAD_IDX..], call)
  }

  /** -1, or the frame size. The frame is cleared before the callsign is encoded, so a bad
      callsign leaves zeros behind. */
  method BuildCq(buf: array<bv8>, src: string, bwHz: int) returns (rc: int)
    requires '\0' !in src
    modifies buf
    ensures rc == CONTROL_FRAME_SIZE || rc == -1
    ensures rc == -1 <==> buf.Length < 14 || (bwHz != 500 && bwHz != 2300 && bwHz != 2750) || !Acceptable(src)
    ensures rc != -1 ==> IsCqFrame(buf[..CONTROL_FRAME_SIZE], src, bwHz)
    ensures buf.Length >= CONTROL_FRAME_SIZE ==> buf[CONTROL_FRAME_SIZE..] == old(buf[CONTROL_FRAME_SIZE..])
  {
    NormalisedIsUpperCase(src);
    if buf.Length < CONTROL_FRAME_SIZE {
      return -1;
    }
    var token := BandwidthToken(bwHz);
    if token == 0 {
      return -1;
    }
    Clear(buf, CONTROL_FRAME_SIZE);
    var encoded := EncodeCallsign(src, CQ_SRC_MAX_ENCODED);
    if encoded == [] {
      return -1;
    }
    Copy(buf, CQ_PAYLOAD_IDX, encoded);
    buf[0] := FrameHeader(PACKET_TYPE_ARQ_CQ, token);
    CutEncodingFills(buf[..CONTROL_FRAME_SIZE][CQ_PAYLOAD_IDX..], encoded, src);
    rc := CONTROL_FRAME_SIZE;
  }

  function ParsedCqFrame(frame: seq<bv8>): Option<(string, int)> {
    if |frame| < CONTROL_FRAME_SIZE || BandwidthHz(HeaderExtension(frame[0])) == 0 then None
    else
      match DecodeSlot(frame[CQ_PAYLOAD_IDX..CONTROL_FRAME_SIZE])
      case None => None
      case Some(call) => Some((call, BandwidthHz(HeaderExtension(frame[0]))))
  }

  method ParseCq(buf: seq<bv8>) returns (r: Option<(string, int)>)
    ensures r == ParsedCqFrame(buf)
  {
    if |buf| < CONTROL_FRAME_SIZE {
      return None;
    }
    var bwHz := BandwidthHz(HeaderExtension(buf[0]));
    if bwHz == 0 {
      return None;
    }
    var call := DecodeCallsign(buf[CQ_PAYLOAD_IDX..CQ_PAYLOAD_IDX + CQ_SRC_MAX_ENCODED]);
    r := if call.None? then None else Some((call.value, bwHz));
  }

  /** parse of build: every callsign a station can have (1 to 15 characters) comes back. */
  lemma CqRoundTrip(frame: seq<bv8>, call: string, bwHz: int)
    requires IsCqFrame(frame, call, bwHz) && BandwidthToken(bwHz) != 0 && call != ""
    ensures ParsedCqFrame(frame).Some? && ParsedCqFrame(frame).value.1 == bwHz
    ensures InUpperCase(ParsedCqFrame(frame).value.0, call[..Min(|call|, 15)])
    ensures HeaderPacketType(frame[0]) == PACKET_TYPE_ARQ_CQ && frame[0] == FirstByte(5, bwHz)
  {
    NormalisedIsUpperCase(call);
    BandwidthRoundTrip(PACKET_TYPE_ARQ_CQ, bwHz);
    assert frame[CQ_PAYLOAD_IDX..CONTROL_FRAME_SIZE] == frame[CQ_PAYLOAD_IDX..];
    CallsignFits(call);
    SlotRoundTrip(frame[CQ_PAYLOAD_IDX..], call);
  }
}
