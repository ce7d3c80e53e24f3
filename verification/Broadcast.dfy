/** Broadcast frames between a KISS client and the modem (data_interfaces/tcp_interfaces.c):
    a length prefix lets the receiver recover an AX.25 frame from the padded modem frame. */
module Broadcast {
  import opened Common
  import opened Framer
  import opened Kiss

  const HEADER_SIZE: nat := 1
  const BCAST_LEN_SIZE: nat := 2
  const PREFIX: nat := HEADER_SIZE + BCAST_LEN_SIZE
  const BCAST_EXT_LEN_PREFIX: bv8 := 0x01
  const BCAST_EXT_KISS_STD: bv8 := 0x02

  /** The modem's frame size, as the send and receive threads demand it. */
  predicate FrameSizeOk(frameSize: nat) { 0 < frameSize <= MAX_PAYLOAD }

  // ------------------------------------------------------------------ to the modem

  predicate Ax25(cmd: bv8) { cmd == CMD_AX25 || cmd == CMD_AX25CALLSIGN }

  /** The header and length in front of an AX.25 frame of `len` bytes. */
  function Prefix(cmd: bv8, len: nat): (r: seq<bv8>)
    ensures |r| == PREFIX
  {
    var ext := if cmd == CMD_AX25 then BCAST_EXT_LEN_PREFIX | BCAST_EXT_KISS_STD else BCAST_EXT_LEN_PREFIX;
    [FrameHeader(PACKET_TYPE_BROADCAST_DATA, ext), ByteOf(len / 256 % 256), ByteOf(len % 256)]
  }

  const SIZE_T: nat := 0x1_0000_0000_0000_0000

  /** Room for an AX.25 payload: an unsigned difference, which wraps around below PREFIX. */
  function MaxPayload(frameSize: nat): (r: nat)
    requires FrameSizeOk(frameSize)
    ensures if frameSize >= PREFIX then r == frameSize - PREFIX else r > 0xFFFF_FFFF
  {
    (SIZE_T + frameSize - PREFIX) % SIZE_T
  }

  /** What goes to the modem for a decoded KISS frame; [] if it is discarded. */
  function ModemFrame(f: Framed, frameSize: nat): (r: seq<bv8>)
    requires FrameSizeOk(frameSize)
    ensures r == [] || |r| == frameSize
  {
    var body :=
      if Ax25(f.cmd) then
        var len := Min(|f.payload|, MaxPayload(frameSize));
        Prefix(f.cmd, len) + f.payload[..len]
      else f.payload;
    if |body| > frameSize then [] else body + Zeros(frameSize - |body|)
  }

  /** The latch for the reply framing and the ring to the modem. */
  class Port {
    var replyCmd: bv8
    var queued: seq<seq<bv8>>

    constructor ()
      ensures replyCmd == CMD_DATA && queued == []
    {
      replyCmd, queued := CMD_DATA, [];
    }

    /** bcast_process_decoded_frame: rewrites the decoded frame in place and queues it. */
    method ProcessDecodedFrame(frame: array<bv8>, frameLen: nat, cmd: bv8, frameSize: nat) returns (accepted: bool)
      requires frame.Length == MAX_PAYLOAD && frameLen <= MAX_PAYLOAD && FrameSizeOk(frameSize)
      requires Ax25(cmd) ==> Min(frameLen, MaxPayload(frameSize)) + PREFIX <= frame.Length
      modifies this, frame
      ensures var r := ModemFrame(Framed(cmd, old(frame[..frameLen])), frameSize);
        accepted == (r != []) && queued == if accepted then old(queued) + [r] else old(queued)
      ensures replyCmd == if Ax25(cmd) then CMD_AX25CALLSIGN else CMD_DATA
    {
      replyCmd := if cmd == CMD_AX25 || cmd == CMD_AX25CALLSIGN then CMD_AX25CALLSIGN else CMD_DATA;
      var len := frameLen;
      ghost var f := Framed(cmd, frame[..frameLen]);
      if cmd == CMD_AX25 || cmd == CMD_AX25CALLSIGN {
        len := InjectPrefix(frame, frameLen, cmd, frameSize);
        assert f.payload[..Min(frameLen, MaxPayload(frameSize))] == old(frame[..Min(frameLen, MaxPayload(frameSize))]);
      }
      accepted := QueuePadded(frame, len, frameSize);
    }

    /** Discards a frame that is too long, else pads it with zeros and queues it. */
    method QueuePadded(frame: array<bv8>, len: nat, frameSize: nat) returns (accepted: bool)
      requires len <= frame.Length && frameSize <= frame.Length
      modifies this`queued, frame
      ensures accepted == (len <= frameSize)
      ensures queued == if accepted then old(queued) + [old(frame[..len]) + Zeros(frameSize - len)] else old(queued)
    {
      if len > frameSize {
        return false;
      }
      ghost var body := frame[..len];
      PadWithZeros(frame, len, frameSize);
      assert frame[..frameSize] == body + Zeros(frameSize - len);
      queued := queued + [frame[..frameSize]];
      return true;
    }
  }

  /** Moves the payload up, cut to what fits, and writes the header and length before it. */
  method InjectPrefix(frame: array<bv8>, frameLen: nat, cmd: bv8, frameSize: nat) returns (len: nat)
    requires frame.Length == MAX_PAYLOAD && frameLen <= MAX_PAYLOAD && FrameSizeOk(frameSize) && Ax25(cmd)
    requires Min(frameLen, MaxPayload(frameSize)) + PREFIX <= frame.Length
    modifies frame
    ensures var n := Min(frameLen, MaxPayload(frameSize));
      len == n + PREFIX && frame[..len] == Prefix(cmd, n) + old(frame[..n])
  {
    var n := frameLen;
    var max := (SIZE_T + frameSize - PREFIX) % SIZE_T;
    if n > max {
      n := max;
    }
    MoveUp(frame, n);
    len := n + PREFIX;
    ghost var moved := frame[..];
    assert moved[PREFIX..len] == old(frame[..n]);
    WritePrefix(frame, cmd, n);
    assert frame[..len] == frame[..PREFIX] + moved[PREFIX..][..n];
  }

  method WritePrefix(frame: array<bv8>, cmd: bv8, n: nat)
    requires frame.Length >= PREFIX
    modifies frame
    ensures frame[..PREFIX] == Prefix(cmd, n) && frame[PREFIX..] == old(frame[PREFIX..])
  {
    var ext := BCAST_EXT_LEN_PREFIX;
    if cmd == CMD_AX25 {
      ext := ext | BCAST_EXT_KISS_STD;
    }
    frame[0] := FrameHeader(PACKET_TYPE_BROADCAST_DATA, ext);
    frame[1] := ByteOf(n / 256 % 256);
    frame[2] := ByteOf(n % 256);
  }

  /** memmove(frame + 3, frame, n) */
  method MoveUp(frame: array<bv8>, n: nat)
    requires n + PREFIX <= frame.Length
    modifies frame
    ensures frame[PREFIX..n + PREFIX] == old(frame[..n])
  {
    var i := n;
    while i > 0
      invariant 0 <= i <= n
      invariant forall k :: 0 <= k < i ==> frame[k] == old(frame[k])
      invariant forall k :: i <= k < n ==> frame[k + PREFIX] == old(frame[k])
    {
      i := i - 1;
      frame[i + PREFIX] := frame[i];
    }
  }

  method PadWithZeros(frame: array<bv8>, from: nat, to: nat)
    requires from <= to <= frame.Length
    modifies frame
    ensures frame[..from] == old(frame[..from]) && frame[from..to] == Zeros(to - from)
  {
    var i := from;
    while i < to
      invariant from <= i <= to
      invariant frame[..from] == old(frame[..from])
      invariant forall k :: from <= k < i ==> frame[k] == 0
    {
      frame[i] := 0;
      i := i + 1;
    }
  }

  // ------------------------------------------------------------------ from the modem

  predicate SelfDescribing(frame: seq<bv8>) {
    && |frame| >= PREFIX && HeaderPacketType(frame[0]) == PACKET_TYPE_BROADCAST_DATA
    && HeaderExtension(frame[0]) & BCAST_EXT_LEN_PREFIX != 0
  }

  /** What the client gets for a received modem frame. */
  function ClientFrame(frame: seq<bv8>, latch: bv8): Framed
    requires frame != []
  {
    if SelfDescribing(frame) then
      var len := Min(IntOf(frame[1]) * 256 + IntOf(frame[2]), |frame| - PREFIX);
      var cmd := if HeaderExtension(frame[0]) & BCAST_EXT_KISS_STD != 0 then CMD_AX25 else CMD_AX25CALLSIGN;
      Framed(cmd, frame[PREFIX..PREFIX + len])
    else if latch == CMD_DATA then Framed(latch, frame)
    else Framed(latch, frame[HEADER_SIZE..])
  }

  /** bcast_get_tx_payload: where the payload lies in the frame, and the reply command. */
  method GetTxPayload(frame: array<bv8>, frameSize: nat, latch: bv8) returns (cmd: bv8, start: nat, len: nat)
    requires 0 < frameSize == frame.Length
    ensures start + len <= frameSize && Framed(cmd, frame[start..start + len]) == ClientFrame(frame[..], latch)
  {
    if frameSize >= PREFIX && HeaderPacketType(frame[0]) == PACKET_TYPE_BROADCAST_DATA
       && HeaderExtension(frame[0]) & BCAST_EXT_LEN_PREFIX != 0 {
      start := PREFIX;
      len := IntOf(frame[1]) * 256 + IntOf(frame[2]);
      if len > frameSize - PREFIX {
        len := frameSize - PREFIX;
      }
      cmd := if HeaderExtension(frame[0]) & BCAST_EXT_KISS_STD != 0 then CMD_AX25 else CMD_AX25CALLSIGN;
      return;
    }
    cmd := latch;
    if cmd == CMD_DATA {
      start, len := 0, frameSize;
    } else {
      start, len := HEADER_SIZE, frameSize - HEADER_SIZE;
    }
  }

  // ------------------------------------------------------------------ round trips

  /** The header of a prefixed frame says what it is, whichever the command. */
  lemma PrefixIsRecognised(cmd: bv8)
    requires Ax25(cmd)
    ensures var h := Prefix(cmd, 0)[0];
      && HeaderPacketType(h) == PACKET_TYPE_BROADCAST_DATA && HeaderExtension(h) & BCAST_EXT_LEN_PREFIX != 0
      && ((HeaderExtension(h) & BCAST_EXT_KISS_STD != 0) <==> cmd == CMD_AX25)
  {
  }

  lemma LengthInBytes(len: nat)
    requires len < 0x10000
    ensures IntOf(ByteOf(len / 256 % 256)) * 256 + IntOf(ByteOf(len % 256)) == len
  {
    ByteRoundTrip(len / 256 % 256);
    ByteRoundTrip(len % 256);
  }

  /** A modem frame with no room for the prefix takes no AX.25 frame at all. */
  lemma NoRoomForPrefix(f: Framed, frameSize: nat)
    requires FrameSizeOk(frameSize) && Ax25(f.cmd)
    ensures ModemFrame(f, frameSize) == [] <==> frameSize < PREFIX
  {
  }

  /** In any larger one an AX.25 frame comes back with its command, cut to what the modem frame
      can carry: it is the same frame exactly if it fits, whatever the receiver's client last
      sent. */
  lemma WrapRoundTrip(f: Framed, frameSize: nat, latch: bv8)
    requires FrameSizeOk(frameSize) && frameSize >= PREFIX && Ax25(f.cmd)
    ensures var r := ModemFrame(f, frameSize);
      && r != [] && ClientFrame(r, latch) == Framed(f.cmd, f.payload[..Min(|f.payload|, frameSize - PREFIX)])
      && (ClientFrame(r, latch) == f <==> |f.payload| <= frameSize - PREFIX)
  {
    var len := Min(|f.payload|, frameSize - PREFIX);
    WrappedParts(f, frameSize, len, ModemFrame(f, frameSize));
    Unwraps(ModemFrame(f, frameSize), f.cmd, len, f.payload[..len], latch);
    assert (f.payload[..len] == f.payload) == (len == |f.payload|);
  }

  lemma WrappedParts(f: Framed, frameSize: nat, len: nat, r: seq<bv8>)
    requires FrameSizeOk(frameSize) && frameSize >= PREFIX && Ax25(f.cmd)
    requires len == Min(|f.payload|, frameSize - PREFIX) && r == ModemFrame(f, frameSize)
    ensures |r| == frameSize && r[..PREFIX] == Prefix(f.cmd, len) && r[PREFIX..PREFIX + len] == f.payload[..len]
  {
    var body := Prefix(f.cmd, len) + f.payload[..len];
    assert r == body + Zeros(frameSize - |body|);
  }

  lemma Unwraps(r: seq<bv8>, cmd: bv8, len: nat, payload: seq<bv8>, latch: bv8)
    requires PREFIX + len <= |r| && len < 0x10000 && Ax25(cmd)
    requires r[..PREFIX] == Prefix(cmd, len) && r[PREFIX..PREFIX + len] == payload
    ensures ClientFrame(r, latch) == Framed(cmd, payload)
  {
    PrefixIsRecognised(cmd);
    LengthInBytes(len);
    assert r[0] == r[..PREFIX][0] && r[1] == r[..PREFIX][1] && r[2] == r[..PREFIX][2];
    assert Prefix(cmd, len)[0] == Prefix(cmd, 0)[0];
  }

  /** A raw frame that is not self-describing comes back padded to the frame size, to a client
      that sends raw frames itself; a longer one is discarded. */
  lemma RawRoundTrip(f: Framed, frameSize: nat)
    requires FrameSizeOk(frameSize) && f.cmd == CMD_DATA && f.payload != []
    ensures ModemFrame(f, frameSize) == [] <==> |f.payload| > frameSize
    ensures |f.payload| <= frameSize && !SelfDescribing(ModemFrame(f, frameSize)) ==>
      ClientFrame(ModemFrame(f, frameSize), CMD_DATA) == Framed(CMD_DATA, f.payload + Zeros(frameSize - |f.payload|))
  {
  }

  /** A frame without a length prefix, from a station with older software, goes to the client as the
      client itself last sent: whole to one that sends raw frames, without the modem's header
      byte to one that sends AX.25. */
  lemma LegacyFrame(frame: seq<bv8>, latch: bv8)
    requires frame != [] && (|frame| < 3 || frame[0] >> 5 != 4 || frame[0] & 0x01 == 0)
    ensures ClientFrame(frame, latch).cmd == latch
    ensures ClientFrame(frame, latch).payload == if latch == 0x02 then frame else frame[1..]
  {
    NotPrefixed(frame[0]);
  }

  lemma NotPrefixed(h: bv8)
    ensures HeaderPacketType(h) == h >> 5 && HeaderExtension(h) & BCAST_EXT_LEN_PREFIX == h & 0x01
    ensures HeaderExtension(h) & BCAST_EXT_KISS_STD == h & 0x02
  {
  }

  /** The bytes in front of an AX.25 frame: which of the two commands it came with, and its length,
      high byte first. */
  lemma PrefixBytes(f: Framed, frameSize: nat)
    requires FrameSizeOk(frameSize) && frameSize >= 3 && Ax25(f.cmd)
    ensures var r := ModemFrame(f, frameSize);
      && |r| == frameSize && r[0] == (if f.cmd == 0 then 0x83 else 0x81)
      && IntOf(r[1]) * 256 + IntOf(r[2]) == Min(|f.payload|, frameSize - 3)
  {
    var len := Min(|f.payload|, frameSize - PREFIX);
    var r := ModemFrame(f, frameSize);
    WrappedParts(f, frameSize, len, r);
    LengthInBytes(len);
    assert r[0] == r[..PREFIX][0] && r[1] == r[..PREFIX][1] && r[2] == r[..PREFIX][2];
  }

  /** A modem frame with a prefix is delivered by it alone: the payload is as long as it says, or as
      the frame allows, and the command is that of its second bit. */
  lemma PrefixedFrame(frame: seq<bv8>, latch: bv8)
    requires |frame| >= 3 && frame[0] >> 5 == 4 && frame[0] & 0x01 == 1
    ensures var r := ClientFrame(frame, latch);
      && r.cmd == (if frame[0] & 0x02 == 0 then 1 else 0)
      && |r.payload| == Min(IntOf(frame[1]) * 256 + IntOf(frame[2]), |frame| - 3)
      && r.payload == frame[3..3 + |r.payload|]
  {
    NotPrefixed(frame[0]);
  }

  // ------------------------------------------------------------------ end to end

  /** The frames of one side's client on their way through both modems to the other client. */
  function ToModem(fs: seq<Framed>, frameSize: nat): seq<seq<bv8>>
    requires FrameSizeOk(frameSize)
  {
    seq(|fs|, i requires 0 <= i < |fs| => ModemFrame(fs[i], frameSize))
  }

  function ToClient(frames: seq<seq<bv8>>, latch: bv8): seq<Framed>
    requires forall i :: 0 <= i < |frames| ==> frames[i] != []
  {
    seq(|frames|, i requires 0 <= i < |frames| => ClientFrame(frames[i], latch))
  }

  predicate Ax25Frame(f: Framed, frameSize: nat) { Ax25(f.cmd) && 1 <= |f.payload| <= frameSize as int - PREFIX }

  /** What the second client reads is what the first one wrote: same payloads, same commands,
      same order, whatever the second client has sent before. */
  lemma EndToEnd(fs: seq<Framed>, frameSize: nat, latch: bv8)
    requires FrameSizeOk(frameSize) && forall i :: 0 <= i < |fs| ==> Ax25Frame(fs[i], frameSize)
    ensures var read := FeedAll(RESET, EncodeAll(fs)).1;
      && read == fs
      && (forall i :: 0 <= i < |read| ==> ModemFrame(read[i], frameSize) != [])
      && FeedAll(RESET, EncodeAll(ToClient(ToModem(read, frameSize), latch))).1 == fs
  {
    StreamIsRead(fs);
    forall i | 0 <= i < |fs|
      ensures ModemFrame(fs[i], frameSize) != [] && ClientFrame(ModemFrame(fs[i], frameSize), latch) == fs[i]
    {
      WrapRoundTrip(fs[i], frameSize, latch);
    }
    assert ToClient(ToModem(fs, frameSize), latch) == fs;
  }
}
