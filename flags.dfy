/**
 * The status-byte algebra: the single-bit set and clear operations for the
 * overflow and carry flags, and the combined zero/negative update.
 * Bit 0 is Carry, bit 1 Zero, bit 6 Overflow and bit 7 Negative.  The
 * status byte is only ever masked, never added to, so it is kept as a `bv8`.
 */
module Flags {
  import opened CpuTypes

  const CARRY: bv8 := 0x01
  const ZERO: bv8 := 0x02
  const OVERFLOW: bv8 := 0x40
  const NEGATIVE: bv8 := 0x80

  predicate Carry(status: bv8) { status & CARRY != 0 }
  predicate Zero(status: bv8) { status & ZERO != 0 }
  predicate Overflow(status: bv8) { status & OVERFLOW != 0 }
  predicate Negative(status: bv8) { status & NEGATIVE != 0 }

  /** True when `a` and `b` agree on every bit outside `mask`. */
  predicate SameOutside(a: bv8, b: bv8, mask: bv8) { a & !mask == b & !mask }

  /** Sets bit 6 and keeps every other bit. */
  function SetOverflow(status: bv8): (r: bv8)
    ensures Overflow(r) && SameOutside(r, status, OVERFLOW)
  {
    status | 0x40
  }

  /** Clears bit 6 and keeps every other bit. */
  function ClearOverflow(status: bv8): (r: bv8)
    ensures !Overflow(r) && SameOutside(r, status, OVERFLOW)
  {
    status & 0xBF
  }

  /** Sets bit 0 and keeps every other bit. */
  function SetCarry(status: bv8): (r: bv8)
    ensures Carry(r) && SameOutside(r, status, CARRY)
  {
    status | 0x01
  }

  /** Clears bit 0 and keeps every other bit. */
  function ClearCarry(status: bv8): (r: bv8)
    ensures !Carry(r) && SameOutside(r, status, CARRY)
  {
    status & 0xFE
  }

  /**
   * The zero/negative update: Zero holds exactly when `result` is 0,
   * Negative exactly when bit 7 of `result` is set (the result is at least
   * 0x80), and no other bit moves.
   */
  function ZeroAndNegative(status: bv8, result: Byte): (r: bv8)
    ensures Zero(r) <==> result == 0
    ensures Negative(r) <==> result >= 0x80
    ensures SameOutside(r, status, ZERO | NEGATIVE)
  {
    var s := if result == 0 then status | 0x02 else status & 0xFD;
    if SignBit(result) then s | 0x80 else s & 0x7F
  }

  /**
   * The test `result & 0b10000000` on a `uchar`: bit 7 of the byte is set
   * exactly when the byte is at least 0x80 (SignBitIsHighHalf).
   */
  predicate SignBit(result: Byte)
  {
    result >= 0x80
  }

  /** Bit 7 of a byte, taken with a mask, agrees with `SignBit`. */
  lemma SignBitIsHighHalf(b: Byte)
    ensures (b as bv8) & 0x80 != 0 <==> SignBit(b)
  {
  }

  /** Two updates that each keep the bits outside their own mask keep the bits outside both masks. */
  lemma SameOutsideCompose(a: bv8, b: bv8, c: bv8, m1: bv8, m2: bv8)
    requires SameOutside(a, b, m1) && SameOutside(b, c, m2)
    ensures SameOutside(a, c, m1 | m2)
  {
  }

  /** Setting or clearing a flag twice is the same as doing it once. */
  lemma SingleBitHelpersIdempotent(status: bv8)
    ensures SetOverflow(SetOverflow(status)) == SetOverflow(status)
    ensures ClearOverflow(ClearOverflow(status)) == ClearOverflow(status)
    ensures SetCarry(SetCarry(status)) == SetCarry(status)
    ensures ClearCarry(ClearCarry(status)) == ClearCarry(status)
  {
  }

  /**
   * The zero/negative update forgets the previous Zero and Negative bits:
   * two status bytes that agree elsewhere give the same result.
   */
  lemma ZeroAndNegativeIgnoresPriorFlags(s1: bv8, s2: bv8, result: Byte)
    requires SameOutside(s1, s2, ZERO | NEGATIVE)
    ensures ZeroAndNegative(s1, result) == ZeroAndNegative(s2, result)
  {
  }

  /** Applying the zero/negative update twice is the same as once. */
  lemma ZeroAndNegativeIdempotent(status: bv8, result: Byte)
    ensures ZeroAndNegative(ZeroAndNegative(status, result), result) == ZeroAndNegative(status, result)
  {
  }
}
