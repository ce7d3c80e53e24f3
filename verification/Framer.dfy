/** The first byte of every modem frame (modem/framer.c): packet type above, extension below. */
module Framer {

  /** The slot of the control mode, in bytes. */
  const CONTROL_FRAME_SIZE: nat := 14

  const PACKET_TYPE_ARQ_CONTROL: bv8 := 0
  const PACKET_TYPE_ARQ_DATA: bv8 := 1
  const PACKET_TYPE_ARQ_CALL: bv8 := 2
  const PACKET_TYPE_BROADCAST_DATA: bv8 := 4
  const PACKET_TYPE_ARQ_CQ: bv8 := 5

  /** write_frame_header */
  function FrameHeader(packetType: bv8, extension: bv8): bv8 { ((packetType & 0x07) << 5) | (extension & 0x1F) }

  function HeaderPacketType(header: bv8): bv8 { (header >> 5) & 0x07 }
  function HeaderExtension(header: bv8): bv8 { header & 0x1F }

  lemma HeaderRoundTrip(packetType: bv8, extension: bv8)
    requires packetType < 8 && extension < 32
    ensures HeaderPacketType(FrameHeader(packetType, extension)) == packetType
    ensures HeaderExtension(FrameHeader(packetType, extension)) == extension
  {
  }

  // ------------------------------------------------------------------ numbers as bytes

  function Nibble(n: nat): (b: bv8)
    requires n < 16
    ensures b < 16
  {
    if n == 0 then 0 else if n == 1 then 1 else if n == 2 then 2 else if n == 3 then 3
    else if n == 4 then 4 else if n == 5 then 5 else if n == 6 then 6 else if n == 7 then 7
    else if n == 8 then 8 else if n == 9 then 9 else if n == 10 then 10 else if n == 11 then 11
    else if n == 12 then 12 else if n == 13 then 13 else if n == 14 then 14 else 15
  }

  function NibbleValue(b: bv8): (n: nat)
    ensures n < 16
  {
    if b == 0 then 0 else if b == 1 then 1 else if b == 2 then 2 else if b == 3 then 3
    else if b == 4 then 4 else if b == 5 then 5 else if b == 6 then 6 else if b == 7 then 7
    else if b == 8 then 8 else if b == 9 then 9 else if b == 10 then 10 else if b == 11 then 11
    else if b == 12 then 12 else if b == 13 then 13 else if b == 14 then 14 else 15
  }

  /** A number below 256 as a byte, and back, one hexadecimal digit at a time. */
  function ByteOf(n: nat): bv8
    requires n < 256
  {
    (Nibble(n / 16) << 4) | Nibble(n % 16)
  }

  function IntOf(b: bv8): (n: nat)
    ensures n < 256
  {
    NibbleValue(b >> 4) * 16 + NibbleValue(b & 0x0F)
  }

  predicate Has(b: bv8, mask: bv8) { b & mask != 0 }

  lemma ByteRoundTrip(n: nat)
    requires n < 256
    ensures IntOf(ByteOf(n)) == n
  {
    NibbleRoundTrip(n / 16);
    NibbleRoundTrip(n % 16);
    NibblesApart(Nibble(n / 16), Nibble(n % 16));
  }

  /** Bytes count up from 0 to 255. */
  lemma BytesCount(b: bv8)
    ensures IntOf(0) == 0 && (b != 0xFF ==> IntOf(b + 1) == IntOf(b) + 1)
  {
    NibbleCounts(b >> 4);
    NibbleCounts(b & 0x0F);
    if b & 0x0F != 15 {
      NoCarry(b);
    } else if b != 0xFF {
      Carry(b);
    }
  }

  lemma ByteOfInt(b: bv8)
    ensures ByteOf(IntOf(b)) == b
  {
    NibbleBack(b >> 4);
    NibbleBack(b & 0x0F);
    assert b == ((b >> 4) << 4) | (b & 0x0F);
  }

  lemma NibbleBack(b: bv8)
    requires b < 16
    ensures Nibble(NibbleValue(b)) == b
  {
  }

  lemma Carry(b: bv8)
    requires b & 0x0F == 15 && b != 0xFF
    ensures (b + 1) & 0x0F == 0 && (b + 1) >> 4 == (b >> 4) + 1 && b >> 4 < 15
  {
  }

  lemma NoCarry(b: bv8)
    requires b & 0x0F != 15
    ensures (b + 1) & 0x0F == (b & 0x0F) + 1 && (b + 1) >> 4 == b >> 4 && b & 0x0F < 15
  {
  }

  lemma NibbleCounts(b: bv8)
    requires b < 16
    ensures NibbleValue(0) == 0 && (NibbleValue(b) == 15 <==> b == 15)
    ensures b < 15 ==> NibbleValue(b + 1) == NibbleValue(b) + 1
  {
  }

  lemma NibbleRoundTrip(n: nat)
    requires n < 16
    ensures NibbleValue(Nibble(n)) == n
  {
  }

  lemma NibblesApart(high: bv8, low: bv8)
    requires high < 16 && low < 16
    ensures ((high << 4) | low) >> 4 == high && ((high << 4) | low) & 0x0F == low
  {
  }
}
