/**
 * The part of JavaScript's number semantics the UTF-8 decoder relies on.
 *
 * JavaScript's bitwise operators `&`, `|` and `<<` convert their operands to
 * 32-bit two's complement integers (ToInt32) and act on the bit patterns, so
 * they are modelled as the same operators on `bv32`. A subtraction between two
 * such results is exact in a double and is read back by the next bitwise
 * operator through ToInt32 again, which is `bv32` subtraction modulo 2^32.
 * The two operations that need care are the sign-propagating shift `>>`
 * (Dafny's `>>` on bit-vectors is the unsigned one) and `String.fromCharCode`,
 * which keeps the low 16 bits of its argument (ToUint16).
 */
module JsBits {

  /**
   * A UTF-16 code unit, the value of one character of a JavaScript string: a
   * number from 0 to 0xFFFF, kept in the 32-bit width the bitwise operators use.
   */
  type CodeUnit = u: bv32 | u <= 0xFFFF

  /** The JavaScript expression `x >> k`: shift right, filling with copies of the sign bit. */
  function Sar(x: bv32, k: bv32): (r: bv32)
    requires k < 32
    ensures r & 0x8000_0000 == x & 0x8000_0000
    ensures k == 0 ==> r == x
  {
    if x & 0x8000_0000 == 0 then x >> k else !((!x) >> k)
  }

  /** Shifting a non-negative value right by ten and back clears its ten low bits and leaves zeros above. */
  lemma ShiftTenNonNegative(x: bv32)
    requires x & 0x8000_0000 == 0
    ensures (x >> 10) << 10 == x & 0xFFFF_FC00
    ensures (x >> 10) >> 22 == 0
  {
  }

  /** The same for a negative value, whose shifted-in bits are ones. */
  lemma ShiftTenNegative(x: bv32)
    requires x & 0x8000_0000 != 0
    ensures (!((!x) >> 10)) << 10 == x & 0xFFFF_FC00
    ensures (!((!x) >> 10)) >> 22 == 0x3FF
  {
  }

  /**
   * `x >> 10` keeps the 22 high bits of x in its low bits and fills its ten
   * high bits with copies of the sign bit.
   */
  lemma SarTenFillsSign(x: bv32)
    ensures Sar(x, 10) << 10 == x & 0xFFFF_FC00
    ensures x & 0x8000_0000 == 0 ==> Sar(x, 10) >> 22 == 0
    ensures x & 0x8000_0000 != 0 ==> Sar(x, 10) >> 22 == 0x3FF
  {
    if x & 0x8000_0000 == 0 {
      ShiftTenNonNegative(x);
    } else {
      ShiftTenNegative(x);
    }
  }

  /** ToUint16, as `String.fromCharCode` applies it to each argument: the low 16 bits. */
  function ToUint16(x: bv32): (u: CodeUnit)
    ensures u == x % 0x1_0000
  {
    x & 0xFFFF
  }
}
