/**
 * What the two height-grid generators (GradientNoiseTerrainGenerator and
 * perlinTerrainGenerator) have in common: the ring of border cells they
 * never write, the hardness keys, the weighted blend of one or two noise
 * layers and the optional rounding to voxel steps.
 */
module HeightField {
  import opened UnityMath

  /** A cell the generators write: both coordinates in 1 .. dim - 2. */
  predicate Interior(dim: int, x: int, y: int)
  {
    1 <= x < dim - 1 && 1 <= y < dim - 1
  }

  /** A cell of a dim x dim grid is left out exactly when it lies on the outer ring. */
  lemma BorderIsRing(dim: int, x: int, y: int)
    requires 0 <= x < dim && 0 <= y < dim
    ensures !Interior(dim, x, y) <==> x == 0 || y == 0 || x == dim - 1 || y == dim - 1
  {
  }

  /** Mathf.Clamp(hardness * factor, 0, 1): the + key scales by 1.1, the - key by 0.9. */
  function ScaleHardness(hardness: real, factor: real): (r: real)
    ensures 0.0 <= r <= 1.0
    ensures 0.0 <= hardness * factor <= 1.0 ==> r == hardness * factor
    ensures hardness * factor < 0.0 ==> r == 0.0
    ensures hardness * factor > 1.0 ==> r == 1.0
  {
    Clamp(hardness * factor, 0.0, 1.0)
  }

  /**
   * From a hardness in [0, 1], + never lowers it and - never raises it; a
   * hardness of 0 is a fixed point of both, so + cannot leave 0.
   */
  lemma HardnessKeys(hardness: real)
    requires 0.0 <= hardness <= 1.0
    ensures hardness <= ScaleHardness(hardness, 1.1)
    ensures ScaleHardness(hardness, 0.9) <= hardness
    ensures hardness == 0.0 ==> ScaleHardness(hardness, 1.1) == 0.0
  {
  }

  /**
   * The value of an interior cell before rounding: the first layer weighted
   * by hardness, plus the second weighted by 1 - hardness when it is on.
   * The weights add up to 1, so a blend of layers in [0, 1] stays in
   * [0, 1], and two equal layers blend to their common value.
   */
  function Blend(n1: real, hardness: real, second: bool, n2: real): (v: real)
    ensures 0.0 <= n1 <= 1.0 && 0.0 <= hardness <= 1.0 && (second ==> 0.0 <= n2 <= 1.0)
            ==> 0.0 <= v <= 1.0
    ensures second && n1 == n2 ==> v == n1
    ensures !second ==> v == n1 * hardness
  {
    var v1 := n1 * hardness;
    if second then
      BlendBounds(n1, hardness, n2);
      v1 + n2 * (1.0 - hardness)
    else
      BlendBounds(n1, hardness, 0.0);
      v1
  }

  lemma BlendBounds(n1: real, h: real, n2: real)
    ensures 0.0 <= n1 <= 1.0 && 0.0 <= h <= 1.0 && 0.0 <= n2 <= 1.0
            ==> 0.0 <= n1 * h + n2 * (1.0 - h) <= 1.0
  {
    if 0.0 <= n1 <= 1.0 && 0.0 <= h <= 1.0 && 0.0 <= n2 <= 1.0 {
      Weighted(n1, h);
      Weighted(n2, 1.0 - h);
      AddBounds(n1 * h, n2 * (1.0 - h), h, 1.0 - h);
    }
  }

  lemma AddBounds(a: real, b: real, c: real, d: real)
    requires 0.0 <= a <= c && 0.0 <= b <= d
    ensures 0.0 <= a + b <= c + d
  {
  }

  /** A fraction a of a non-negative weight w lies between 0 and w. */
  lemma Weighted(a: real, w: real)
    requires 0.0 <= a <= 1.0 && 0.0 <= w
    ensures 0.0 <= a * w <= w
  {
    assert w - a * w == (1.0 - a) * w;
  }

  /**
   * The voxel option: System.Math.Round(v, digits) when it is on, v
   * unchanged otherwise.  The library throws for digits outside 0..15.
   */
  function Voxelize(v: real, voxel: bool, digits: int): (r: real)
    requires voxel ==> 0 <= digits <= 15
    ensures !voxel ==> r == v
    ensures voxel ==> v - 0.5 / DecimalScale(digits) <= r <= v + 0.5 / DecimalScale(digits)
    ensures 0.0 <= v <= 1.0 ==> 0.0 <= r <= 1.0
  {
    if voxel then
      RoundingKeepsUnit(v, digits);
      RoundDecimal(v, digits)
    else v
  }

  lemma RoundingKeepsUnit(v: real, digits: int)
    requires 0 <= digits <= 15
    ensures 0.0 <= v <= 1.0 ==> 0.0 <= RoundDecimal(v, digits) <= 1.0
  {
    if 0.0 <= v <= 1.0 {
      RoundDecimalUnitInterval(v, digits);
    }
  }

  /** A voxelized height is already on the voxel grid. */
  lemma VoxelizeIdempotent(v: real, voxel: bool, digits: int)
    requires voxel ==> 0 <= digits <= 15
    ensures Voxelize(Voxelize(v, voxel, digits), voxel, digits) == Voxelize(v, voxel, digits)
  {
    if voxel {
      RoundDecimalIdempotent(v, digits);
    }
  }
}
