/**
 * Hash-based 3D gradient noise with domain rotation (the DomainRotatedPerlin
 * static class).
 *
 * The integer and bit-level parts (the 64-bit wrapping lattice hash, the
 * gradient index mask, the truncate-then-correct floor) are modelled exactly;
 * the rotations and the trilinear fade blend are algebra over `real`.
 */
module DomainRotatedPerlin {
  import opened MachineInt

  const PRIME_X: Int64 := 0x5205402B9270C86F
  const PRIME_Y: Int64 := 0x598CD327003817B5
  const PRIME_Z: Int64 := 0x5BCC226E9FA0BACB
  const HASH_MULTIPLIER: Int64 := 0x53A3F72DEEC546F5

  const ROOT3OVER3: real := 0.577350269189626
  const ROTATE_3D_ORTHOGONALIZER: real := -0.21132486540518713

  const N_GRADS_3D_EXPONENT: nat := 8
  const N_GRADS_3D: nat := 256  // 1 << N_GRADS_3D_EXPONENT

  const NORMALIZER_3D: real := 2.742445288166158

  /** Length of GRADIENTS_3D: four floats per gradient. */
  const TABLE_LENGTH: nat := N_GRADS_3D * 4

  /** Length of the literal `grad3` base table: 48 gradients of four floats. */
  const BASE_LENGTH: nat := 192

  /*
   * Lattice coordinates
   */

  /** C# `(int)x` for a double: truncation toward zero. */
  function Truncate(x: real): (r: int)
    ensures 0.0 <= x ==> r as real <= x < r as real + 1.0
    ensures x < 0.0 ==> r as real - 1.0 < x <= r as real
  {
    if x >= 0.0 then x.Floor else -((-x).Floor)
  }

  /**
   * C# `(int)x`.  The language leaves an out-of-range conversion unspecified;
   * it is modelled as int.MinValue, the value the x86/x64 conversion
   * instruction produces.
   */
  function CastToInt32(x: real): (r: Int32)
    ensures -(TWO_31 as real) - 1.0 < x < TWO_31 as real ==> r == Truncate(x)
  {
    if -(TWO_31 as real) - 1.0 < x < TWO_31 as real then Truncate(x) else -TWO_31
  }

  /**
   * FastFloor: truncate, then step down once when truncation rounded a
   * negative non-integer up.  The `xi - 1` is an unchecked `int` subtraction.
   * On the range where the result fits in an `int` it is the mathematical floor.
   */
  function FastFloor(x: real): (r: Int32)
    ensures -(TWO_31 as real) <= x < TWO_31 as real ==> r as real <= x < r as real + 1.0
  {
    var xi := CastToInt32(x);
    if x < xi as real then Wrap32(xi - 1) else xi
  }

  /** On an integral coordinate FastFloor returns that integer. */
  lemma FastFloorOfInteger(n: Int32)
    ensures FastFloor(n as real) == n
  {
  }

  /*
   * Hashing
   */

  /** The 58 high bits vacated by the shift before the final mask. */
  const VACATED_58: bv64 := 0xFFFF_FFFF_FFFF_FFC0

  /**
   * C# `hash >> (64 - N_GRADS_3D_EXPONENT + 2)`, i.e. `hash >> 58`, on a
   * `long`.  C#'s `>>` on a signed operand is an arithmetic shift, while
   * Dafny's `>>` on bit-vectors is logical: the low six bits are the top six
   * bits of the hash, and the 58 vacated bits are copies of its sign bit
   * rather than zeros.
   */
  function HashShift(hash: bv64): (r: bv64)
    ensures r & !VACATED_58 == hash >> 58
    ensures r & VACATED_58 == if hash & SIGN_BIT_64 != 0 then VACATED_58 else 0
  {
    if hash & SIGN_BIT_64 == 0 then hash >> 58 else (hash >> 58) | VACATED_58
  }

  /** Mask `(N_GRADS_3D - 1) << 2`. */
  const INDEX_MASK: bv32 := 0x3FC

  /**
   * Lines `hash ^= hash >> 58; gi = (int)hash & ((N_GRADS_3D - 1) << 2)` of
   * Grad, on the bit pattern of the multiplied hash.  The result is the
   * offset of a four-float gradient in GRADIENTS_3D.
   */
  function GradIndexOfHash(hash: bv64): (gi: bv16)
    ensures gi & 3 == 0 && gi <= 1020
  {
    var mixed := hash ^ HashShift(hash);
    var low := (mixed & 0xFFFF_FFFF) as bv32;  // (int)hash keeps the low 32 bits
    (low & INDEX_MASK) as bv16  // the mask leaves at most ten bits
  }

  /**
   * What the sign extension contributes: index bits 2..5 are hash bits 2..5
   * mixed with the top hash bits 60..63, while index bits 6..9 are hash bits
   * 6..9 flipped exactly when the hash is negative.  (A logical shift would
   * leave bits 6..9 unflipped, so every negative hash would select another
   * gradient.)
   */
  lemma GradIndexBits(hash: bv64)
    ensures (GradIndexOfHash(hash) as bv64) & 0x3C == (hash ^ (hash >> 58)) & 0x3C
    ensures (GradIndexOfHash(hash) as bv64) & 0x3C0
         == (hash & 0x3C0) ^ (if hash & SIGN_BIT_64 != 0 then 0x3C0 else 0)
  {
  }

  /** Lines `hash = (seed ^ xrvp) ^ (yrvp ^ zrvp); hash *= HASH_MULTIPLIER` and the mask. */
  function GradIndex(seed: Int64, xrvp: Int64, yrvp: Int64, zrvp: Int64): bv16
  {
    var hash := Xor64(Xor64(seed, xrvp), Xor64(yrvp, zrvp));
    GradIndexOfHash(ToBits64(Wrap64(hash * HASH_MULTIPLIER)))
  }

  /**
   * `gi | k` for a component k in 0..2 of the gradient at offset gi: since
   * the two low bits of gi are clear the `|` is an addition, so the slot is
   * component k of gradient number gi / 4, inside the 1024-entry table.
   */
  function Slot(gi: bv16, k: bv16): (i: nat)
    requires gi & 3 == 0 && gi <= 1020 && k <= 2
    ensures i == 4 * (gi >> 2) as int + k as int && (gi >> 2) as int < N_GRADS_3D
  {
    OrIsAddition(gi, k);
    ScaledAsInt(gi >> 2, k);
    (gi | k) as int
  }

  lemma OrIsAddition(gi: bv16, k: bv16)
    requires gi & 3 == 0 && gi <= 1020 && k <= 2
    ensures gi | k == ((gi >> 2) << 2) + k && gi >> 2 <= 255
  {
  }

  lemma ComponentLiterals()
    ensures (0 as bv16) as int == 0 && (1 as bv16) as int == 1 && (2 as bv16) as int == 2
  {
  }

  lemma ScaledAsInt(q: bv16, k: bv16)
    requires q <= 255 && k <= 2
    ensures ((q << 2) + k) as int == 4 * q as int + k as int && q as int < N_GRADS_3D
  {
  }

  /*
   * Gradients
   */

  const A: real := 2.22474487139
  const B: real := 3.0862664687972017
  const C: real := 1.1721513422464978

  /** Row k of the literal `grad3` initialiser: one gradient and a padding lane. */
  function Grad3Row(k: nat): (real, real, real, real)
    requires k < BASE_LENGTH / 4
  {
    match k
    case 0  => ( A,     A,    -1.0,   0.0)
    case 1  => ( A,     A,     1.0,   0.0)
    case 2  => ( B,     C,     0.0,   0.0)
    case 3  => ( C,     B,     0.0,   0.0)
    case 4  => (-A,     A,    -1.0,   0.0)
    case 5  => (-A,     A,     1.0,   0.0)
    case 6  => (-C,     B,     0.0,   0.0)
    case 7  => (-B,     C,     0.0,   0.0)
    case 8  => (-1.0,  -A,    -A,     0.0)
    case 9  => ( 1.0,  -A,    -A,     0.0)
    case 10 => ( 0.0,  -B,    -C,     0.0)
    case 11 => ( 0.0,  -C,    -B,     0.0)
    case 12 => (-1.0,  -A,     A,     0.0)
    case 13 => ( 1.0,  -A,     A,     0.0)
    case 14 => ( 0.0,  -C,     B,     0.0)
    case 15 => ( 0.0,  -B,     C,     0.0)
    case 16 => (-A,    -A,    -1.0,   0.0)
    case 17 => (-A,    -A,     1.0,   0.0)
    case 18 => (-B,    -C,     0.0,   0.0)
    case 19 => (-C,    -B,     0.0,   0.0)
    case 20 => (-A,    -1.0,  -A,     0.0)
    case 21 => (-A,     1.0,  -A,     0.0)
    case 22 => (-C,     0.0,  -B,     0.0)
    case 23 => (-B,     0.0,  -C,     0.0)
    case 24 => (-A,    -1.0,   A,     0.0)
    case 25 => (-A,     1.0,   A,     0.0)
    case 26 => (-B,     0.0,   C,     0.0)
    case 27 => (-C,     0.0,   B,     0.0)
    case 28 => (-1.0,   A,    -A,     0.0)
    case 29 => ( 1.0,   A,    -A,     0.0)
    case 30 => ( 0.0,   C,    -B,     0.0)
    case 31 => ( 0.0,   B,    -C,     0.0)
    case 32 => (-1.0,   A,     A,     0.0)
    case 33 => ( 1.0,   A,     A,     0.0)
    case 34 => ( 0.0,   B,     C,     0.0)
    case 35 => ( 0.0,   C,     B,     0.0)
    case 36 => ( A,    -A,    -1.0,   0.0)
    case 37 => ( A,    -A,     1.0,   0.0)
    case 38 => ( C,    -B,     0.0,   0.0)
    case 39 => ( B,    -C,     0.0,   0.0)
    case 40 => ( A,    -1.0,  -A,     0.0)
    case 41 => ( A,     1.0,  -A,     0.0)
    case 42 => ( B,     0.0,  -C,     0.0)
    case 43 => ( C,     0.0,  -B,     0.0)
    case 44 => ( A,    -1.0,   A,     0.0)
    case 45 => ( A,     1.0,   A,     0.0)
    case 46 => ( C,     0.0,   B,     0.0)
    case _  => ( B,     0.0,   C,     0.0)
  }

  /** Entry i of the flat `grad3` initialiser. */
  function Grad3Literal(i: nat): real
    requires i < BASE_LENGTH
  {
    var row := Grad3Row(i / 4);
    match i % 4
    case 0 => row.0
    case 1 => row.1
    case 2 => row.2
    case _ => row.3
  }

  /** Every row of the initialiser has a zero fourth component. */
  lemma Grad3PaddingIsZero(i: nat)
    requires i < BASE_LENGTH && i % 4 == 3
    ensures Grad3Literal(i) == 0.0
  {
  }

  /** `grad3[j]` after the normalising loop. */
  function NormalisedGrad3(j: nat): real
    requires j < BASE_LENGTH
  {
    Grad3Literal(j) / NORMALIZER_3D
  }

  /**
   * GRADIENTS_3D, the table the static constructor builds once and never
   * changes afterwards: the normalised base table repeated to 1024 entries.
   */
  function Gradients3D(): seq<real>
  {
    seq(TABLE_LENGTH, i requires 0 <= i < TABLE_LENGTH => NormalisedGrad3(i % BASE_LENGTH))
  }

  /**
   * The tiling keeps the padding lanes: since 192 is a multiple of 4, every
   * entry of GRADIENTS_3D at an index congruent to 3 modulo 4 is zero.
   */
  lemma {:induction false} GradientsPaddingIsZero(i: nat)
    requires i < TABLE_LENGTH && i % 4 == 3
    ensures |Gradients3D()| == TABLE_LENGTH && Gradients3D()[i] == 0.0
  {
    var j := i % BASE_LENGTH;
    assert i == (i / BASE_LENGTH) * BASE_LENGTH + j;
    assert j % 4 == 3;
    Grad3PaddingIsZero(j);
  }

  /**
   * The static constructor: fill `grad3` from the initialiser, divide each
   * entry by NORMALIZER_3D in place, then tile it into GRADIENTS_3D.
   */
  method BuildGradients3D() returns (gradients: array<real>)
    ensures gradients.Length == TABLE_LENGTH
    ensures forall i :: 0 <= i < TABLE_LENGTH ==> gradients[i] == NormalisedGrad3(i % BASE_LENGTH)
    ensures gradients[..] == Gradients3D()
  {
    var grad3 := new real[BASE_LENGTH](j requires 0 <= j < BASE_LENGTH => Grad3Literal(j));
    Normalise(grad3);
    gradients := new real[TABLE_LENGTH](_ => 0.0);
    Tile(grad3, gradients);
    assert gradients[..] == Gradients3D();
  }

  /** The normalising loop: divide every entry by NORMALIZER_3D in place. */
  method Normalise(a: array<real>)
    modifies a
    ensures forall j :: 0 <= j < a.Length ==> a[j] == old(a[j]) / NORMALIZER_3D
  {
    for i := 0 to a.Length
      invariant forall j :: 0 <= j < i ==> a[j] == old(a[j]) / NORMALIZER_3D
      invariant forall j :: i <= j < a.Length ==> a[j] == old(a[j])
    {
      a[i] := a[i] / NORMALIZER_3D;
    }
  }

  /**
   * The tiling loop: counter i runs over the destination and counter j over
   * the source, j wrapping back to 0 whenever it reaches the source length.
   */
  method Tile(source: array<real>, dest: array<real>)
    requires source.Length == BASE_LENGTH && source != dest
    modifies dest
    ensures forall i :: 0 <= i < dest.Length ==> dest[i] == source[i % BASE_LENGTH]
  {
    var i, j := 0, 0;
    while i < dest.Length
      invariant 0 <= i <= dest.Length && 0 <= j <= BASE_LENGTH
      invariant j == i % BASE_LENGTH || (j == BASE_LENGTH && i % BASE_LENGTH == 0)
      invariant forall k :: 0 <= k < i ==> dest[k] == source[k % BASE_LENGTH]
    {
      if j == source.Length {
        j := 0;
      }
      dest[i] := source[j];
      i, j := i + 1, j + 1;
    }
  }

  /**
   * `g[gi | 0] * dx + g[gi | 1] * dy + g[gi | 2] * dz` for a 1024-entry table:
   * the dot product of gradient number gi / 4 with the offset.
   */
  function DotGradient(g: seq<real>, gi: bv16, dx: real, dy: real, dz: real): (r: real)
    requires |g| == TABLE_LENGTH && gi & 3 == 0 && gi <= 1020
    ensures var e := (gi >> 2) as int;
            e < N_GRADS_3D && r == g[4 * e] * dx + g[4 * e + 1] * dy + g[4 * e + 2] * dz
  {
    ComponentLiterals();
    g[Slot(gi, 0)] * dx + g[Slot(gi, 1)] * dy + g[Slot(gi, 2)] * dz
  }

  /** Grad: the hashed corner gradient of GRADIENTS_3D, dotted with the offset from the corner. */
  function Grad(seed: Int64, xrvp: Int64, yrvp: Int64, zrvp: Int64, dx: real, dy: real, dz: real): real
  {
    DotGradient(Gradients3D(), GradIndex(seed, xrvp, yrvp, zrvp), dx, dy, dz)
  }

  /*
   * Blend
   */

  /** The quintic fade curve t^3 (6 t^2 - 15 t + 10), as written in Horner form. */
  function FadeCurve(t: real): (r: real)
    ensures t == 0.0 ==> r == 0.0
    ensures t == 1.0 ==> r == 1.0
  {
    t * t * t * (10.0 + t * (-15.0 + t * 6.0))
  }

  /** The fade curve is point-symmetric about (1/2, 1/2). */
  lemma FadeCurveSymmetric(t: real)
    ensures FadeCurve(1.0 - t) == 1.0 - FadeCurve(t)
  {
  }

  /** Linear blend `(1 - f) * a + f * b` used for each axis. */
  function Lerp(f: real, a: real, b: real): (r: real)
    ensures f == 0.0 ==> r == a
    ensures f == 1.0 ==> r == b
  {
    (1.0 - f) * a + f * b
  }

  /**
   * Noise3_UnrotatedBase: floor each coordinate to its lattice cell, hash the
   * eight corners (the neighbour corners add the prime with unchecked 64-bit
   * addition), take each corner's gradient dot offset, and blend trilinearly
   * with the fade curve.
   */
  function Noise3_UnrotatedBase(seed: Int64, xr: real, yr: real, zr: real): real
  {
    var xrb, yrb, zrb := FastFloor(xr), FastFloor(yr), FastFloor(zr);
    var xrbp, yrbp, zrbp := Wrap64(xrb * PRIME_X), Wrap64(yrb * PRIME_Y), Wrap64(zrb * PRIME_Z);
    var xrbp1, yrbp1, zrbp1 := Wrap64(xrbp + PRIME_X), Wrap64(yrbp + PRIME_Y), Wrap64(zrbp + PRIME_Z);
    var xri, yri, zri := xr - xrb as real, yr - yrb as real, zr - zrb as real;
    var g000 := Grad(seed, xrbp, yrbp, zrbp, xri, yri, zri);
    var g001 := Grad(seed, xrbp, yrbp, zrbp1, xri, yri, zri - 1.0);
    var g010 := Grad(seed, xrbp, yrbp1, zrbp, xri, yri - 1.0, zri);
    var g011 := Grad(seed, xrbp, yrbp1, zrbp1, xri, yri - 1.0, zri - 1.0);
    var g100 := Grad(seed, xrbp1, yrbp, zrbp, xri - 1.0, yri, zri);
    var g101 := Grad(seed, xrbp1, yrbp, zrbp1, xri - 1.0, yri, zri - 1.0);
    var g110 := Grad(seed, xrbp1, yrbp1, zrbp, xri - 1.0, yri - 1.0, zri);
    var g111 := Grad(seed, xrbp1, yrbp1, zrbp1, xri - 1.0, yri - 1.0, zri - 1.0);
    Trilinear(FadeCurve(xri), FadeCurve(yri), FadeCurve(zri), g000, g001, g010, g011, g100, g101, g110, g111)
  }

  /**
   * The blend of the eight corner values: along Z first, then Y, then X.
   * With all three fades 0 it is the value at the base corner.
   */
  function Trilinear(fadeX: real, fadeY: real, fadeZ: real,
                     g000: real, g001: real, g010: real, g011: real,
                     g100: real, g101: real, g110: real, g111: real): (r: real)
    ensures fadeX == 0.0 && fadeY == 0.0 && fadeZ == 0.0 ==> r == g000
    ensures fadeX == 1.0 && fadeY == 1.0 && fadeZ == 1.0 ==> r == g111
  {
    var g00Z := Lerp(fadeZ, g000, g001);
    var g01Z := Lerp(fadeZ, g010, g011);
    var g10Z := Lerp(fadeZ, g100, g101);
    var g11Z := Lerp(fadeZ, g110, g111);
    var g0YZ := Lerp(fadeY, g00Z, g01Z);
    var g1YZ := Lerp(fadeY, g10Z, g11Z);
    Lerp(fadeX, g0YZ, g1YZ)
  }

  /**
   * The neighbour-corner hash input `c * p + p` (unchecked) equals the hash
   * input `(c + 1) * p` of the next lattice coordinate, so adjacent cells
   * agree on the gradients of their shared corners.
   */
  lemma {:induction false} NeighbourCornerHashInput(c: int, p: Int64)
    ensures Wrap64(Wrap64(c * p) + p) == Wrap64((c + 1) * p)
  {
    Wrap64AddWrapped(c * p, p);
  }

  /** At a lattice point the noise is the zero-offset dot product, i.e. 0. */
  lemma {:induction false} UnrotatedBaseAtLattice(seed: Int64, i: Int32, j: Int32, k: Int32)
    ensures Noise3_UnrotatedBase(seed, i as real, j as real, k as real) == 0.0
  {
    FastFloorOfInteger(i);
    FastFloorOfInteger(j);
    FastFloorOfInteger(k);
    var xrbp, yrbp, zrbp := Wrap64(i * PRIME_X), Wrap64(j * PRIME_Y), Wrap64(k * PRIME_Z);
    GradAtCorner(seed, xrbp, yrbp, zrbp);
  }

  /** The gradient contribution of a corner vanishes at the corner itself. */
  lemma GradAtCorner(seed: Int64, xrvp: Int64, yrvp: Int64, zrvp: Int64)
    ensures Grad(seed, xrvp, yrvp, zrvp, 0.0, 0.0, 0.0) == 0.0
  {
  }

  /*
   * Domain rotations
   */

  /**
   * The improve-XY rotation of Noise3_ImproveXY: Z is sent up the main
   * diagonal of the lattice, XY slices are skewed off the cube faces.
   */
  function RotateImproveXY(x: real, y: real, z: real): (real, real, real)
  {
    var xy := x + y;
    var s2 := xy * ROTATE_3D_ORTHOGONALIZER;
    var zz := z * ROOT3OVER3;
    (x + s2 + zz, y + s2 + zz, xy * -ROOT3OVER3 + zz)
  }

  function Noise3_ImproveXY(seed: Int64, x: real, y: real, z: real): real
  {
    var (xr, yr, zr) := RotateImproveXY(x, y, z);
    Noise3_UnrotatedBase(seed, xr, yr, zr)
  }

  /**
   * The improve-XZ rotation of Noise3_ImproveXZ: Y is sent up the main
   * diagonal of the lattice, XZ slices are skewed off the cube faces.
   */
  function RotateImproveXZ(x: real, y: real, z: real): (real, real, real)
  {
    var xz := x + z;
    var s2 := xz * ROTATE_3D_ORTHOGONALIZER;
    var yy := y * ROOT3OVER3;
    (x + s2 + yy, xz * -ROOT3OVER3 + yy, z + s2 + yy)
  }

  function Noise3_ImproveXZ(seed: Int64, x: real, y: real, z: real): real
  {
    var (xr, yr, zr) := RotateImproveXZ(x, y, z);
    Noise3_UnrotatedBase(seed, xr, yr, zr)
  }

  /** Along the Z axis the improve-XY rotation runs up the main diagonal. */
  lemma ImproveXYOnZAxis(seed: Int64, z: real)
    ensures Noise3_ImproveXY(seed, 0.0, 0.0, z)
         == Noise3_UnrotatedBase(seed, z * ROOT3OVER3, z * ROOT3OVER3, z * ROOT3OVER3)
  {
  }

  /**
   * Improve-XZ is improve-XY with the roles of Y and Z exchanged: rotate
   * (x, z, y) and swap the second and third rotated coordinates back.
   */
  lemma RotateImproveXZIsSwappedXY(x: real, y: real, z: real)
    ensures var (a, b, c) := RotateImproveXY(x, z, y);
            RotateImproveXZ(x, y, z) == (a, c, b)
  {
  }

  lemma {:induction false} ImproveXZIsSwappedImproveXY(seed: Int64, x: real, y: real, z: real)
    ensures var (a, b, c) := RotateImproveXY(x, z, y);
            Noise3_ImproveXZ(seed, x, y, z) == Noise3_UnrotatedBase(seed, a, c, b)
  {
    RotateImproveXZIsSwappedXY(x, y, z);
  }
}
