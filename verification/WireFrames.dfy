/** The frames of an ARQ session as bytes: the builders of datalink_arq/arq_protocol.c, the
    padding of arq_fsm.c, and the recovery of length and mode in arq.c. */
module WireFrames {
  import opened Common
  import opened ArqTypes
  import opened Framer

  const FLAG_HAS_DATA: bv8 := 0x40
  const FLAG_LEN_HI: bv8 := 0x20
  const FLAG_LEN_B9: bv8 := 0x10
  const FLAG_LEN_B10: bv8 := 0x08
  const FLAG_BURST_END: bv8 := 0x04

  const SUBTYPE_ACK: bv8 := 3
  const SUBTYPE_DISCONNECT: bv8 := 4
  const SUBTYPE_DATA: bv8 := 5
  const SUBTYPE_KEEPALIVE: bv8 := 6
  const SUBTYPE_KEEPALIVE_ACK: bv8 := 7
  const SUBTYPE_MODE_REQ: bv8 := 8
  const SUBTYPE_MODE_ACK: bv8 := 9
  const SUBTYPE_TURN_REQ: bv8 := 10
  const SUBTYPE_TURN_ACK: bv8 := 11

  /** The eight bytes every ARQ frame begins with. */
  function Header(packetType: bv8, subtype: bv8, flags: bv8, sid: Byte, seqNo: Byte, ack: Byte, snr: bv8,
      delay: bv8): (r: seq<bv8>)
    ensures |r| == FRAME_HDR_SIZE
  {
    [FrameHeader(packetType, 0), subtype, flags, ByteOf(sid), ByteOf(seqNo), ByteOf(ack), snr, delay]
  }

  // ------------------------------------------------------------------ DATA frames

  /** A DATA frame as the window holds it: some payload, no more than the mode's slot takes. */
  predicate DataOk(f: Frame) {
    f.DataFrame? && PayloadMode(f.mode) && f.userBytes == Timing(f.mode).value.payloadBytes - FRAME_HDR_SIZE
    && 1 <= |f.payload| <= f.userBytes
  }

  /** Bits 8 to 10 of a partial frame's length, and the end of the burst. */
  function DataFlags(f: Frame): bv8
    requires f.DataFrame?
  {
    var n := |f.payload|;
    var full := n == f.userBytes;
    (if !full && n / 256 % 2 == 1 then FLAG_LEN_HI else 0) | (if !full && n / 512 % 2 == 1 then FLAG_LEN_B9 else 0) |
    (if !full && n / 1024 % 2 == 1 then FLAG_LEN_B10 else 0) | (if f.burstEnd then FLAG_BURST_END else 0)
  }

  /** 0 for a full frame, else the low byte of the length. */
  function LengthByte(f: Frame): bv8
    requires f.DataFrame?
  {
    if |f.payload| == f.userBytes then 0 else ByteOf(|f.payload| % 256)
  }

  function DataBytes(f: Frame, snr: bv8): (r: seq<bv8>)
    requires DataOk(f)
    ensures |r| == Timing(f.mode).value.payloadBytes
  {
    Header(PACKET_TYPE_ARQ_DATA, SUBTYPE_DATA, DataFlags(f), f.sid, f.seqNo, f.ack, snr, LengthByte(f))
    + f.payload + Zeros(f.userBytes - |f.payload|)
  }

  // ------------------------------------------------------------------ control frames

  predicate ControlOk(f: Frame) {
    !f.DataFrame? && !f.CallFrame? && (f.ModeReqFrame? || f.ModeAckFrame? ==> 0 <= f.mode < 256)
  }

  function Subtype(f: Frame): bv8
    requires ControlOk(f)
  {
    match f
    case AckFrame(_, _, _) => SUBTYPE_ACK
    case DisconnectFrame(_) => SUBTYPE_DISCONNECT
    case KeepaliveFrame(_) => SUBTYPE_KEEPALIVE
    case KeepaliveAckFrame(_) => SUBTYPE_KEEPALIVE_ACK
    case TurnReqFrame(_, _) => SUBTYPE_TURN_REQ
    case TurnAckFrame(_) => SUBTYPE_TURN_ACK
    case ModeReqFrame(_, _) => SUBTYPE_MODE_REQ
    case ModeAckFrame(_, _) => SUBTYPE_MODE_ACK
  }

  /** What follows the header: the mode of a negotiation. */
  function Extra(f: Frame): seq<bv8>
    requires ControlOk(f)
  {
    if f.ModeReqFrame? || f.ModeAckFrame? then [ByteOf(f.mode)] else []
  }

  /** A control frame fills the control mode's slot of fourteen bytes. */
  function ControlBytes(f: Frame, snr: bv8, delay: bv8): (r: seq<bv8>)
    requires ControlOk(f)
    ensures |r| == CONTROL_FRAME_SIZE
  {
    var ack := if f.AckFrame? || f.TurnReqFrame? then f.ack else 0;
    var flags := if f.AckFrame? && f.hasData then FLAG_HAS_DATA else 0;
    Header(PACKET_TYPE_ARQ_CONTROL, Subtype(f), flags, f.sid, 0, ack, snr, delay)
    + Extra(f) + Zeros(CONTROL_FRAME_SIZE - FRAME_HDR_SIZE - |Extra(f)|)
  }

  // ------------------------------------------------------------------ receiving

  /** arq_protocol_decode_snr: whole decibels around 128; 0 stands for no reading. */
  function SnrOf(raw: bv8): Snr { if raw == 0 then None else Some((IntOf(raw) - 128) * 10) }

  /** The C cast of a float to int: towards zero. */
  function Truncated(x: real): int { if x >= 0.0 then x.Floor else -(-x).Floor }

  function Clamped(v: int, low: int, high: int): int
    requires low <= high
  {
    if v < low then low else if v > high then high else v
  }

  /** arq_protocol_encode_snr */
  function EncodeSnr(snrDb: real): bv8 { ByteOf(Clamped(Truncated(snrDb + 0.5) + 128, 1, 255)) }

  /** What comes out at the other end, in whole decibels; it is never "no reading". From -0.5 dB on
      it is the nearest whole decibel; below, it is at least half a decibel too high. */
  lemma SnrRoundTrip(snrDb: real) returns (d: int)
    ensures SnrOf(EncodeSnr(snrDb)) == Some(10 * d) && -127 <= d <= 127
    ensures -0.5 <= snrDb < 127.5 ==> snrDb - 0.5 < d as real <= snrDb + 0.5
    ensures -127.5 <= snrDb < -0.5 ==> snrDb + 0.5 <= d as real < snrDb + 1.5
    ensures (snrDb >= 127.5 ==> d == 127) && (snrDb < -127.5 ==> d == -127)
  {
    var v := Clamped(Truncated(snrDb + 0.5) + 128, 1, 255);
    d := v - 128;
    ByteRoundTrip(v);
    ByteIsZero(v);
  }

  lemma ByteIsZero(v: nat)
    requires v < 256
    ensures ByteOf(v) == 0 <==> v == 0
  {
    ByteRoundTrip(v);
    ByteRoundTrip(0);
  }

  /** The original documents the code as rounded; that holds exactly from -0.5 dB on and, below,
      half way between two whole decibels. A whole reading of -3 dB arrives as -2 dB. */
  lemma SnrIsRounded(snrDb: real) returns (d: int)
    requires -127.0 <= snrDb <= 127.0
    ensures SnrOf(EncodeSnr(snrDb)) == Some(10 * d)
    ensures snrDb - 0.5 <= d as real <= snrDb + 0.5 <==> snrDb >= -0.5 || snrDb - snrDb.Floor as real == 0.5
    ensures snrDb == -3.0 ==> d == -2
  {
    d := SnrRoundTrip(snrDb);
    if snrDb < -0.5 {
      HalfAbove(snrDb, snrDb.Floor, d);
    }
  }

  lemma HalfAbove(x: real, whole: int, d: int)
    requires whole as real <= x < whole as real + 1.0 && x + 0.5 <= d as real < x + 1.5
    ensures d as real == x + 0.5 <==> x - whole as real == 0.5
  {
    assert d as real >= (whole as real) + 0.5;
    assert d == whole + 1 || d == whole + 2;
  }

  /** The mode whose slot has this size; DATAC15 if there is none. */
  function ModeOfSize(size: nat): int {
    if size == 14 then DATAC16
    else if size == 30 then DATAC15
    else if size == 54 then DATAC4
    else if size == 126 then DATAC3
    else if size == 510 then DATAC1
    else if size == 1180 then DATAC17
    else if size == 1213 then QAM16C2
    else if size == 256 then QAM16FM
    else DATAC15
  }

  /** The number of valid payload bytes, at most the slot. */
  function ValidBytes(flags: bv8, delay: bv8, slot: nat): (n: nat)
    ensures n <= slot
  {
    var full := delay == 0 && !Has(flags, FLAG_LEN_HI) && !Has(flags, FLAG_LEN_B9) && !Has(flags, FLAG_LEN_B10);
    var n := if full then slot
             else IntOf(delay) + (if Has(flags, FLAG_LEN_HI) then 256 else 0)
                  + (if Has(flags, FLAG_LEN_B9) then 512 else 0) + (if Has(flags, FLAG_LEN_B10) then 1024 else 0);
    if n > slot then slot else n
  }

  /** arq_handle_incoming_frame: the event posted for a frame, if any. */
  function Incoming(data: seq<bv8>): Option<Event> {
    if |data| < FRAME_HDR_SIZE then None
    else
      var packetType, subtype, flags := HeaderPacketType(data[0]), data[1], data[2];
      var sid, seqNo, ack, snr := IntOf(data[3]), IntOf(data[4]), IntOf(data[5]), SnrOf(data[6]);
      if packetType == PACKET_TYPE_ARQ_DATA then
        var n := ValidBytes(flags, data[7], |data| - FRAME_HDR_SIZE);
        Some(RxData(sid, seqNo, data[FRAME_HDR_SIZE..FRAME_HDR_SIZE + n], Has(flags, FLAG_HAS_DATA),
                    Has(flags, FLAG_BURST_END), ModeOfSize(|data|), snr))
      else if packetType == PACKET_TYPE_ARQ_CONTROL then
        var mode := if |data| > FRAME_HDR_SIZE then IntOf(data[FRAME_HDR_SIZE]) else 0;
        if subtype == SUBTYPE_ACK then Some(RxAck(sid, ack, Has(flags, FLAG_HAS_DATA), snr))
        else if subtype == SUBTYPE_DISCONNECT then Some(RxDisconnect(sid))
        else if subtype == SUBTYPE_TURN_REQ then Some(RxTurnReq(sid))
        else if subtype == SUBTYPE_TURN_ACK then Some(RxTurnAck(sid))
        else if subtype == SUBTYPE_KEEPALIVE then Some(RxKeepalive(sid))
        else if subtype == SUBTYPE_KEEPALIVE_ACK then Some(RxKeepaliveAck(sid))
        else if subtype == SUBTYPE_MODE_REQ then Some(RxModeReq(sid, mode))
        else if subtype == SUBTYPE_MODE_ACK then Some(RxModeAck(sid, mode))
        else None
      else None
  }

  // ------------------------------------------------------------------ as the original does it

  /** arq_protocol_build_data: fills the buffer, or -1 if it is too short or there is nothing
      to send. `data` holds the payload and its zero padding. */
  method BuildData(buf: array<bv8>, sid: Byte, seqNo: Byte, ack: Byte, flags: bv8, snr: bv8, valid: nat, data: seq<bv8>)
    returns (n: int)
    requires valid < 0x10000
    modifies buf
    ensures n == if buf.Length < FRAME_HDR_SIZE + |data| || |data| == 0 then -1 else FRAME_HDR_SIZE + |data|
    ensures var header := Header(PACKET_TYPE_ARQ_DATA, SUBTYPE_DATA, flags, sid, seqNo, ack, snr, ByteOf(valid % 256));
      n > 0 ==> buf[..n] == header + data
    ensures n < 0 ==> buf[..] == old(buf[..])
  {
    var total := FRAME_HDR_SIZE + |data|;
    if buf.Length < total || |data| == 0 {
      return -1;
    }
    WriteHeader(buf, PACKET_TYPE_ARQ_DATA, SUBTYPE_DATA, flags, sid, seqNo, ack, snr, ByteOf(valid % 256));
    CopyTo(buf, FRAME_HDR_SIZE, data);
    assert buf[..total] == buf[..FRAME_HDR_SIZE] + buf[FRAME_HDR_SIZE..total];
    return total;
  }

  method WriteHeader(buf: array<bv8>, packetType: bv8, subtype: bv8, flags: bv8, sid: Byte, seqNo: Byte, ack: Byte,
      snr: bv8, delay: bv8)
    requires buf.Length >= FRAME_HDR_SIZE
    modifies buf
    ensures buf[..FRAME_HDR_SIZE] == Header(packetType, subtype, flags, sid, seqNo, ack, snr, delay)
    ensures buf[FRAME_HDR_SIZE..] == old(buf[FRAME_HDR_SIZE..])
  {
    CopyTo(buf, 0, [0, subtype, flags, ByteOf(sid), ByteOf(seqNo), ByteOf(ack), snr, delay]);
    assert buf[..FRAME_HDR_SIZE] == buf[0..FRAME_HDR_SIZE];
    buf[0] := FrameHeader(packetType, 0);
  }

  method CopyTo(buf: array<bv8>, at: nat, data: seq<bv8>)
    requires at + |data| <= buf.Length
    modifies buf
    ensures buf[..at] == old(buf[..at]) && buf[at..at + |data|] == data && buf[at + |data|..] == old(buf[at + |data|..])
  {
    var i := 0;
    while i < |data|
      invariant 0 <= i <= |data|
      invariant forall k :: 0 <= k < i ==> buf[at + k] == data[k]
      invariant forall k :: 0 <= k < buf.Length && !(at <= k < at + i) ==> buf[k] == old(buf[k])
    {
      buf[at + i] := data[i];
      i := i + 1;
    }
  }

  /** build_ctrl: the number of bytes written, or -1 if the buffer is too short for them. The
      sender pads them to the control slot. */
  method BuildControl(buf: array<bv8>, f: Frame, snr: bv8, delay: bv8) returns (n: int)
    requires ControlOk(f)
    modifies buf
    ensures n == if buf.Length < FRAME_HDR_SIZE + |Extra(f)| then -1 else FRAME_HDR_SIZE + |Extra(f)|
    ensures n > 0 ==> buf[..n] + Zeros(CONTROL_FRAME_SIZE - n) == ControlBytes(f, snr, delay)
    ensures buf[if n > 0 then n else 0..] == old(buf[..])[if n > 0 then n else 0..]
  {
    var ack := if f.AckFrame? || f.TurnReqFrame? then f.ack else 0;
    var flags := if f.AckFrame? && f.hasData then FLAG_HAS_DATA else 0;
    var extra := Extra(f);
    var total := FRAME_HDR_SIZE + |extra|;
    if buf.Length < total {
      return -1;
    }
    WriteHeader(buf, PACKET_TYPE_ARQ_CONTROL, Subtype(f), flags, f.sid, 0, ack, snr, delay);
    CopyTo(buf, FRAME_HDR_SIZE, extra);
    assert buf[..total] == buf[..FRAME_HDR_SIZE] + buf[FRAME_HDR_SIZE..total];
    return total;
  }

  /** The search of the mode table for a slot of this size. */
  method FindMode(size: nat) returns (mode: int)
    ensures mode == ModeOfSize(size)
    ensures forall i :: 0 <= i < |MODE_TABLE| && MODE_TABLE[i].payloadBytes == size ==> mode == MODE_TABLE[i].mode
    ensures (forall i :: 0 <= i < |MODE_TABLE| ==> MODE_TABLE[i].payloadBytes != size) ==> mode == DATAC15
  {
    mode := DATAC15;
    var i := 0;
    while i < |MODE_TABLE|
      invariant 0 <= i <= |MODE_TABLE| && mode == DATAC15
      invariant forall k :: 0 <= k < i ==> MODE_TABLE[k].payloadBytes != size
    {
      if size == MODE_TABLE[i].payloadBytes {
        return MODE_TABLE[i].mode;
      }
      i := i + 1;
    }
    assert MODE_TABLE[0].payloadBytes != size && MODE_TABLE[1].payloadBytes != size;
    assert MODE_TABLE[2].payloadBytes != size;
    assert MODE_TABLE[3].payloadBytes != size && MODE_TABLE[4].payloadBytes != size;
    assert MODE_TABLE[5].payloadBytes != size;
    assert MODE_TABLE[6].payloadBytes != size && MODE_TABLE[7].payloadBytes != size;
  }

  // ------------------------------------------------------------------ the layout of a frame

  /** The bytes of a DATA frame one by one. A payload shorter than the slot has its length in the
      last byte of the header and in three flags, and zeros behind it. */
  lemma DataLayout(f: Frame, snr: bv8)
    requires DataOk(f)
    ensures var d, n := DataBytes(f, snr), |f.payload|;
      var part := n < f.userBytes;
      && |d| == 8 + f.userBytes && d[0] == 0x20 && d[1] == 5 && d[6] == snr && d[8..8 + n] == f.payload
      && IntOf(d[3]) == f.sid && IntOf(d[4]) == f.seqNo && IntOf(d[5]) == f.ack
      && IntOf(d[7]) == (if part then n % 256 else 0) && d[2] & 0x43 == 0
      && (Has(d[2], 0x20) <==> part && n / 256 % 2 == 1) && (Has(d[2], 0x10) <==> part && n / 512 % 2 == 1)
      && (Has(d[2], 0x08) <==> part && n / 1024 % 2 == 1) && (Has(d[2], 0x04) <==> f.burstEnd)
      && forall i :: 8 + n <= i < |d| ==> d[i] == 0
  {
    var header := Header(PACKET_TYPE_ARQ_DATA, SUBTYPE_DATA, DataFlags(f), f.sid, f.seqNo, f.ack, snr, LengthByte(f));
    assert DataBytes(f, snr)[..8] == header;
    ByteRoundTrip(f.sid);
    ByteRoundTrip(f.seqNo);
    ByteRoundTrip(f.ack);
    ByteRoundTrip(|f.payload| % 256);
    ByteRoundTrip(0);
    ByteIsZero(0);
    FlagsRoundTrip(f);
    assert FrameHeader(PACKET_TYPE_ARQ_DATA, 0) == 0x20;
  }

  /** The bytes of a control frame one by one: fourteen of them. */
  lemma ControlLayout(f: Frame, snr: bv8, delay: bv8)
    requires ControlOk(f)
    ensures var d := ControlBytes(f, snr, delay);
      && |d| == 14 && d[0] == 0 && d[4] == 0 && d[6] == snr && d[7] == delay && IntOf(d[3]) == f.sid
      && d[1] == (match f
           case AckFrame(_, _, _) => 3 case DisconnectFrame(_) => 4 case KeepaliveFrame(_) => 6
           case KeepaliveAckFrame(_) => 7 case ModeReqFrame(_, _) => 8 case ModeAckFrame(_, _) => 9
           case TurnReqFrame(_, _) => 10 case TurnAckFrame(_) => 11)
      && d[2] == (if f.AckFrame? && f.hasData then 0x40 else 0)
      && IntOf(d[5]) == (if f.AckFrame? || f.TurnReqFrame? then f.ack else 0)
      && IntOf(d[8]) == (if f.ModeReqFrame? || f.ModeAckFrame? then f.mode else 0)
      && forall i :: 9 <= i < 14 ==> d[i] == 0
  {
    ControlHeader(f, snr, delay);
    ByteRoundTrip(0);
    ByteIsZero(0);
    if f.ModeReqFrame? || f.ModeAckFrame? {
      assert ControlBytes(f, snr, delay)[8] == ByteOf(f.mode);
      ByteRoundTrip(f.mode);
    } else {
      assert ControlBytes(f, snr, delay)[8] == 0;
    }
  }

  /** What is dropped: a frame shorter than its header, of another type, or of a subtype that is
      none of the eight. */
  lemma UnknownIsDropped(data: seq<bv8>)
    ensures Incoming(data) == None <==>
      |data| < 8 || (data[0] >> 5 != 1 && (data[0] >> 5 != 0 || data[1] < 3 || data[1] == 5 || data[1] > 11))
  {
    if |data| >= 8 {
      TypeBits(data[0]);
    }
  }

  lemma TypeBits(h: bv8)
    ensures HeaderPacketType(h) == h >> 5
  {
  }

  /** What any DATA frame is taken for: a length beyond the slot is cut to the slot. */
  lemma AnyData(data: seq<bv8>) returns (n: nat)
    requires |data| >= 8 && data[0] >> 5 == 1
    ensures 8 + n <= |data| && Incoming(data).Some? && Incoming(data).value.RxData?
    ensures var ev := Incoming(data).value;
      && ev.sid == IntOf(data[3]) && ev.seqNo == IntOf(data[4]) && ev.payload == data[8..8 + n]
      && ev.hasData == (data[2] & 0x40 != 0) && ev.burstEnd == (data[2] & 0x04 != 0)
      && ev.mode == ModeOfSize(|data|)
    ensures var named := IntOf(data[7]) + (if data[2] & 0x20 != 0 then 256 else 0)
        + (if data[2] & 0x10 != 0 then 512 else 0) + (if data[2] & 0x08 != 0 then 1024 else 0);
      n == if named == 0 then |data| - 8 else Min(named, |data| - 8)
  {
    TypeBits(data[0]);
    ByteZero(data[7]);
    n := ValidBytes(data[2], data[7], |data| - 8);
  }

  lemma ByteZero(b: bv8)
    ensures IntOf(b) == 0 <==> b == 0
  {
    ByteOfInt(b);
    ByteOfInt(0);
  }

  // ------------------------------------------------------------------ round trips

  /** A DATA frame handed to the modem becomes at the other end the event the two-station model
      says: same number, payload and mode, whether the slot is full, partly filled, or filled
      to a multiple of 256 bytes. */
  lemma DataRoundTrip(f: Frame, snr: bv8)
    requires DataOk(f)
    ensures Incoming(DataBytes(f, snr)) == Some(EventOf(f, SnrOf(snr)))
  {
    var data := DataBytes(f, snr);
    HeaderRoundTrip(PACKET_TYPE_ARQ_DATA, 0);
    ByteRoundTrip(f.sid);
    ByteRoundTrip(f.seqNo);
    FlagsRoundTrip(f);
    LengthRoundTrip(f);
    assert data[..FRAME_HDR_SIZE] ==
      Header(PACKET_TYPE_ARQ_DATA, SUBTYPE_DATA, DataFlags(f), f.sid, f.seqNo, f.ack, snr, LengthByte(f));
    assert data[FRAME_HDR_SIZE..FRAME_HDR_SIZE + |f.payload|] == f.payload;
    assert ModeOfSize(|data|) == f.mode;
  }

  lemma FlagsRoundTrip(f: Frame)
    requires DataOk(f)
    ensures var flags, part := DataFlags(f), |f.payload| != f.userBytes;
      && Has(flags, FLAG_LEN_HI) == (part && |f.payload| / 256 % 2 == 1)
      && Has(flags, FLAG_LEN_B9) == (part && |f.payload| / 512 % 2 == 1)
      && Has(flags, FLAG_LEN_B10) == (part && |f.payload| / 1024 % 2 == 1)
      && Has(flags, FLAG_BURST_END) == f.burstEnd && !Has(flags, FLAG_HAS_DATA)
  {
  }

  /** The sentinel for a full slot is never taken for a length, nor a length for it. */
  lemma LengthRoundTrip(f: Frame)
    requires DataOk(f)
    ensures ValidBytes(DataFlags(f), LengthByte(f), f.userBytes) == |f.payload|
  {
    FlagsRoundTrip(f);
    if |f.payload| != f.userBytes {
      LengthDigits(|f.payload|);
      ByteRoundTrip(|f.payload| % 256);
    }
  }

  /** A length below 2048 from its low byte and three more bits. */
  lemma LengthDigits(n: nat)
    requires n < 2048
    ensures n == n % 256 + n / 256 % 2 * 256 + n / 512 % 2 * 512 + n / 1024 % 2 * 1024
  {
  }

  /** A control frame handed to the modem becomes the event the two-station model says. */
  lemma ControlRoundTrip(f: Frame, snr: bv8, delay: bv8)
    requires ControlOk(f)
    ensures Incoming(ControlBytes(f, snr, delay)) == Some(EventOf(f, SnrOf(snr)))
  {
    ControlHeader(f, snr, delay);
    if f.AckFrame? {
      AckFlag(f.hasData);
    } else if f.ModeReqFrame? || f.ModeAckFrame? {
      assert ControlBytes(f, snr, delay)[FRAME_HDR_SIZE] == ByteOf(f.mode);
      ByteRoundTrip(f.mode);
    }
  }

  lemma ControlHeader(f: Frame, snr: bv8, delay: bv8)
    requires ControlOk(f)
    ensures var data := ControlBytes(f, snr, delay);
      && HeaderPacketType(data[0]) == PACKET_TYPE_ARQ_CONTROL && data[1] == Subtype(f)
      && data[2] == (if f.AckFrame? && f.hasData then FLAG_HAS_DATA else 0)
      && IntOf(data[3]) == f.sid && data[4] == 0 && data[6] == snr && data[7] == delay && data[0] == 0
      && IntOf(data[5]) == if f.AckFrame? || f.TurnReqFrame? then f.ack else 0
  {
    var data := ControlBytes(f, snr, delay);
    var ack := if f.AckFrame? || f.TurnReqFrame? then f.ack else 0;
    var flags := if f.AckFrame? && f.hasData then FLAG_HAS_DATA else 0;
    assert data[..FRAME_HDR_SIZE] == Header(PACKET_TYPE_ARQ_CONTROL, Subtype(f), flags, f.sid, 0, ack, snr, delay);
    HeaderRoundTrip(PACKET_TYPE_ARQ_CONTROL, 0);
    ByteRoundTrip(f.sid);
    ByteRoundTrip(ack);
    ByteIsZero(0);
  }

  lemma AckFlag(hasData: bool)
    ensures Has(if hasData then FLAG_HAS_DATA else 0, FLAG_HAS_DATA) == hasData
  {
  }
}
