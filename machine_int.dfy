/**
 * C# fixed-width integers as a model over Dafny's unbounded `int`.
 *
 * `int` (Int32) and `long` (Int64) are subset types of `int`; the unchecked
 * wrap-around of C# arithmetic is written out with `Wrap32` / `Wrap64`, and
 * the bit-level operators on `long` go through the two's-complement bit
 * pattern as a `bv64`.
 */
module MachineInt {

  const TWO_31: int := 0x8000_0000
  const TWO_32: int := 0x1_0000_0000
  const TWO_63: int := 0x8000_0000_0000_0000
  const TWO_64: int := 0x1_0000_0000_0000_0000

  /** C# `int` */
  type Int32 = x: int | -0x8000_0000 <= x < 0x8000_0000

  /** C# `long` */
  type Int64 = x: int | -0x8000_0000_0000_0000 <= x < 0x8000_0000_0000_0000

  /** The C# `int` that an unchecked 32-bit operation producing `x` leaves behind. */
  function Wrap32(x: int): (r: Int32)
    ensures (r - x) % TWO_32 == 0
    ensures -TWO_31 <= x < TWO_31 ==> r == x
  {
    (x + TWO_31) % TWO_32 - TWO_31
  }

  /** The C# `long` that an unchecked 64-bit operation producing `x` leaves behind. */
  function Wrap64(x: int): (r: Int64)
    ensures (r - x) % TWO_64 == 0
    ensures -TWO_63 <= x < TWO_63 ==> r == x
  {
    (x + TWO_63) % TWO_64 - TWO_63
  }

  /** Two values congruent modulo 2^64 wrap to the same `long`. */
  lemma Wrap64Congruent(a: int, b: int)
    requires (a - b) % TWO_64 == 0
    ensures Wrap64(a) == Wrap64(b)
  {
  }

  /**
   * Adding to a wrapped `long` and wrapping again is the same as wrapping
   * the exact sum: the two-step unchecked arithmetic of the source agrees
   * with one-step arithmetic modulo 2^64.
   */
  lemma {:induction false} Wrap64AddWrapped(a: int, b: int)
    ensures Wrap64(Wrap64(a) + b) == Wrap64(a + b)
  {
    Wrap64Congruent(Wrap64(a) + b, a + b);
  }

  /** Two's-complement bit pattern of a `long`. */
  function ToBits64(x: Int64): bv64
  {
    (if x < 0 then x + TWO_64 else x) as bv64
  }

  /** The `long` whose two's-complement bit pattern is `b`. */
  function FromBits64(b: bv64): Int64
  {
    var n := b as int;
    if n >= TWO_63 then n - TWO_64 else n
  }

  /** Every bit pattern is the pattern of the `long` read from it. */
  lemma BitsOfFromBits64(b: bv64)
    ensures ToBits64(FromBits64(b)) == b
  {
  }

  /** C# `a ^ b` on `long`. */
  function Xor64(a: Int64, b: Int64): Int64
  {
    FromBits64(ToBits64(a) ^ ToBits64(b))
  }

  /**
   * `^` on `long` acts bit by bit on the two's-complement patterns: it is
   * commutative, and a value xored with itself is 0.
   */
  lemma {:induction false} Xor64Laws(a: Int64, b: Int64)
    ensures ToBits64(Xor64(a, b)) == ToBits64(a) ^ ToBits64(b)
    ensures Xor64(a, b) == Xor64(b, a)
    ensures Xor64(a, a) == 0
  {
    BitsOfFromBits64(ToBits64(a) ^ ToBits64(b));
  }

  const SIGN_BIT_64: bv64 := 0x8000_0000_0000_0000
}
