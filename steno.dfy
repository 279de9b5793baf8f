/**
 * Key codes of the stenotype layer and their place in the 6-byte Gemini PR packet
 * (src/steno.rs). Each key is one flag bit at one byte position; the packet collects
 * the flags of a chord by bitwise OR.
 */
module Steno {
  import opened Basics

  type BytePosition = U8
  type Flag = Byte
  type PacketCode = (BytePosition, Flag)

  /** Number of bytes in a Gemini PR packet. */
  const PacketLength: nat := 6

  type Packet = p: seq<Byte> | |p| == PacketLength witness [0, 0, 0, 0, 0, 0]

  const ZeroPacket: Packet := [0, 0, 0, 0, 0, 0]

  /** Bit 7 of byte 0 marks the first byte of a packet on the wire; no key may use it. */
  const LeadMarker: Byte := 0x80

  datatype KeyCode =
    | ST1 | ST2 | ST3 | ST4
    | S1 | TL | PL | HL
    | S2 | KL | WL | RL
    | A | O | E | U
    | FR | PR | LR | TR | DR
    | RR | BR | GR | SR | ZR
    | Number

  /**
   * The (byte, flag) cell of a key. Every byte position lies inside the packet, every
   * flag is a single bit, and the lead-byte marker bit is never produced.
   */
  function ToPacketCode(k: KeyCode): (r: PacketCode)
    ensures r.0 < PacketLength
    ensures IsSingleBit(r.1)
    ensures r.0 == 0 ==> r.1 & LeadMarker == 0
  {
    match k
    case S1 => (1, 64)
    case TL => (1, 16)
    case PL => (1, 4)
    case HL => (1, 1)

    case S2 => (1, 32)
    case KL => (1, 8)
    case WL => (1, 2)
    case RL => (2, 64)

    case ST1 => (2, 8)
    case ST2 => (2, 4)
    case ST3 => (3, 32)
    case ST4 => (3, 16)

    case A => (2, 32)
    case O => (2, 16)
    case E => (3, 8)
    case U => (3, 4)

    case FR => (3, 2)
    case PR => (4, 64)
    case LR => (4, 16)
    case TR => (4, 4)
    case DR => (4, 1)

    case RR => (3, 1)
    case BR => (4, 32)
    case GR => (4, 8)
    case SR => (4, 2)
    case ZR => (5, 1)

    case Number => (0, 32)
  }

  /** The key that owns a packet cell, if any: the inverse table of ToPacketCode. */
  function FromPacketCode(c: PacketCode): Option<KeyCode> {
    if c == (1, 64) then Some(S1)
    else if c == (1, 16) then Some(TL)
    else if c == (1, 4) then Some(PL)
    else if c == (1, 1) then Some(HL)
    else if c == (1, 32) then Some(S2)
    else if c == (1, 8) then Some(KL)
    else if c == (1, 2) then Some(WL)
    else if c == (2, 64) then Some(RL)
    else if c == (2, 8) then Some(ST1)
    else if c == (2, 4) then Some(ST2)
    else if c == (3, 32) then Some(ST3)
    else if c == (3, 16) then Some(ST4)
    else if c == (2, 32) then Some(A)
    else if c == (2, 16) then Some(O)
    else if c == (3, 8) then Some(E)
    else if c == (3, 4) then Some(U)
    else if c == (3, 2) then Some(FR)
    else if c == (4, 64) then Some(PR)
    else if c == (4, 16) then Some(LR)
    else if c == (4, 4) then Some(TR)
    else if c == (4, 1) then Some(DR)
    else if c == (3, 1) then Some(RR)
    else if c == (4, 32) then Some(BR)
    else if c == (4, 8) then Some(GR)
    else if c == (4, 2) then Some(SR)
    else if c == (5, 1) then Some(ZR)
    else if c == (0, 32) then Some(Number)
    else None
  }

  /** Looking up the cell of a key and then the owner of that cell gives the key back. */
  lemma {:induction false} PacketCodeRoundTrip(k: KeyCode)
    ensures FromPacketCode(ToPacketCode(k)) == Some(k)
  {
    match k
    case ST1 => case ST2 => case ST3 => case ST4 =>
    case S1 => case TL => case PL => case HL =>
    case S2 => case KL => case WL => case RL =>
    case A => case O => case E => case U =>
    case FR => case PR => case LR => case TR => case DR =>
    case RR => case BR => case GR => case SR => case ZR =>
    case Number =>
  }

  /** Distinct keys occupy distinct packet cells, so no two keys of a chord collide. */
  lemma ToPacketCodeInjective(j: KeyCode, k: KeyCode)
    ensures ToPacketCode(j) == ToPacketCode(k) ==> j == k
  {
    PacketCodeRoundTrip(j);
    PacketCodeRoundTrip(k);
  }

  /** The number bar sends the "#1" cell of the Gemini PR key chart: byte 0, flag 0x20. */
  lemma NumberIsHashOne()
    ensures ToPacketCode(Number) == (0, 0x20)
  {
  }
}
