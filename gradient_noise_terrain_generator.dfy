/**
 * GradientNoiseTerrainGenerator: a dim x dim height grid from one or two
 * layers of gradient noise (OpenSimplex2, or the lattice kernel with or
 * without its domain rotation), sampled on a plane that either slides
 * through a 3D volume or scrolls across a 2D one, and the per-frame key
 * handling that changes its settings.
 */
module GradientNoiseTerrain {
  import opened Wrappers
  import opened MachineInt
  import opened UnityMath
  import opened HeightField
  import Lattice = DomainRotatedPerlin

  datatype NoiseType = SimplexType | UnmitigatedPerlin | DomainRotatedPerlin

  /**
   * The four kernels GetNoise can call: OpenSimplex2's Noise2 and
   * Noise3_ImproveXY (OpenSimplex2 is not part of this model), and the
   * lattice kernel with and without its domain rotation.  They are passed
   * as values; LatticeKernels ties the last two to DomainRotatedPerlin.
   */
  datatype Kernels = Kernels(simplex2: (Int64, real, real) -> real,
                             simplex3: (Int64, real, real, real) -> real,
                             rotated: (Int64, real, real, real) -> real,
                             unrotated: (Int64, real, real, real) -> real)

  ghost predicate LatticeKernels(k: Kernels)
  {
    k.rotated == Lattice.Noise3_ImproveXY && k.unrotated == Lattice.Noise3_UnrotatedBase
  }

  /** What GetNoise reads of the generator besides its arguments. */
  datatype NoiseMode = NoiseMode(noiseType: NoiseType, is3D: bool, scrollOffset: real)

  /**
   * The kernel GetNoise dispatches to.  In 3D mode the scroll offset is the
   * third coordinate; in 2D mode it is added to both plane coordinates and
   * the lattice kernels are sampled at z = 0.
   */
  function RawNoise(k: Kernels, mode: NoiseMode, seed: Int64, x: real, y: real): real
  {
    var s := mode.scrollOffset;
    match mode.noiseType
    case SimplexType =>
      if mode.is3D then k.simplex3(seed, x, y, s) else k.simplex2(seed, x + s, y + s)
    case DomainRotatedPerlin =>
      if mode.is3D then k.rotated(seed, x, y, s) else k.rotated(seed, x + s, y + s, 0.0)
    case UnmitigatedPerlin =>
      if mode.is3D then k.unrotated(seed, x, y, s) else k.unrotated(seed, x + s, y + s, 0.0)
  }

  /**
   * GetNoise: the kernel's value moved from [-1, 1] onto [0, 1], with the
   * kernel's 0 at the middle of the height range.
   */
  function GetNoise(k: Kernels, mode: NoiseMode, seed: Int64, x: real, y: real): (r: real)
    ensures -1.0 <= RawNoise(k, mode, seed, x, y) <= 1.0 ==> 0.0 <= r <= 1.0
    ensures r == 0.5 <==> RawNoise(k, mode, seed, x, y) == 0.0
    ensures 2.0 * r - 1.0 == RawNoise(k, mode, seed, x, y)
  {
    RawNoise(k, mode, seed, x, y) * 0.5 + 0.5
  }

  /**
   * For the lattice kernels, the 2D mode is the z = 0 plane of the 3D mode
   * at scroll offset 0, moved diagonally by the scroll offset.
   */
  lemma PlaneModeIsShiftedSlice(k: Kernels, mode: NoiseMode, seed: Int64, x: real, y: real)
    requires !mode.is3D && mode.noiseType != SimplexType
    ensures GetNoise(k, mode, seed, x, y)
         == GetNoise(k, NoiseMode(mode.noiseType, true, 0.0), seed, x + mode.scrollOffset, y + mode.scrollOffset)
  {
  }

  /**
   * The unrotated lattice kernel sampled at a lattice point gives the middle
   * height 0.5, in either mode.
   */
  lemma UnmitigatedAtLattice(k: Kernels, mode: NoiseMode, seed: Int64, x: real, y: real, i: Int32, j: Int32, l: Int32)
    requires LatticeKernels(k) && mode.noiseType == UnmitigatedPerlin
    requires mode.is3D ==> x == i as real && y == j as real && mode.scrollOffset == l as real
    requires !mode.is3D ==> x + mode.scrollOffset == i as real && y + mode.scrollOffset == j as real && l == 0
    ensures GetNoise(k, mode, seed, x, y) == 0.5
  {
    Lattice.UnrotatedBaseAtLattice(seed, i, j, l);
    var (px, py, pz) := if mode.is3D then (x, y, mode.scrollOffset)
                        else (x + mode.scrollOffset, y + mode.scrollOffset, 0.0);
    assert (px, py, pz) == (i as real, j as real, l as real);
    assert RawNoise(k, mode, seed, x, y) == Lattice.Noise3_UnrotatedBase(seed, px, py, pz);
  }

  /** The M key: the two lattice kernels trade places; OpenSimplex2 stays. */
  function SwapLattice(t: NoiseType): (r: NoiseType)
    ensures r == SimplexType <==> t == SimplexType
    ensures t != SimplexType ==> r != t
  {
    match t
    case UnmitigatedPerlin => DomainRotatedPerlin
    case DomainRotatedPerlin => UnmitigatedPerlin
    case SimplexType => SimplexType
  }

  lemma SwapLatticeTwice(t: NoiseType)
    ensures SwapLattice(SwapLattice(t)) == t
  {
  }

  /** The + key, then the - key, as pressed in one frame. */
  function HardnessAfter(hardness: real, plus: bool, minus: bool): (r: real)
    ensures plus || minus ==> 0.0 <= r <= 1.0
    ensures 0.0 <= hardness <= 1.0 ==> 0.0 <= r <= 1.0
    ensures !plus && !minus ==> r == hardness
  {
    var h := if plus then ScaleHardness(hardness, 1.1) else hardness;
    if minus then ScaleHardness(h, 0.9) else h
  }

  /**
   * The two seeds of a randomising frame: the first is the draw r1, the
   * second r2 + (noise01Seed - int.MinValue) in 64-bit arithmetic.  That
   * never wraps, and the second seed lies above the first by r2 - int.MinValue,
   * which is at least 1 and below 2^32, so the seeds always differ.
   */
  function RandomSeeds(r1: Int32, r2: int): (seeds: (Int64, Int64))
    requires -TWO_31 + 1 <= r2 < TWO_31 - 1
    ensures seeds.0 == r1
    ensures seeds.1 - seeds.0 == r2 + TWO_31
    ensures 1 <= seeds.1 - seeds.0 < TWO_32
  {
    var noise01Seed: Int64 := r1;
    var lifted := Wrap64(noise01Seed + TWO_31);
    (noise01Seed, Wrap64(r2 + lifted))
  }

  /** The Random.Range draws of a randomising frame, each with its range. */
  datatype Draws = Draws(seed1: int, seed2: int, offsetX01: int, offsetY01: int, offsetX02: int, offsetY02: int)

  predicate DrawsInRange(d: Draws)
  {
    -TWO_31 <= d.seed1 < TWO_31 - 1 && -TWO_31 + 1 <= d.seed2 < TWO_31 - 1 &&
    -TWO_31 <= d.offsetX01 < TWO_31 - 1 && -TWO_31 <= d.offsetY01 < TWO_31 - 1 &&
    -TWO_31 <= d.offsetX02 < TWO_31 - 1 && -TWO_31 <= d.offsetY02 < TWO_31 - 1
  }

  /** The keys Update reads (plus: Plus or KeypadPlus; minus: Minus or KeypadMinus). */
  datatype Keys = Keys(x: bool, z: bool, e: bool, v: bool, m: bool, plus: bool, minus: bool, r: bool)

  /**
   * The first layer's sample coordinate: the cell times the integer scale,
   * a 32-bit product that wraps, plus the offset, times the base scale.
   */
  function Coord1(cell: int, scale: Int32, offset: real, baseScale: real): real
  {
    (Wrap32(cell * scale) as real + offset) * baseScale
  }

  /** The second layer's sample coordinate, with a fractional scale. */
  function Coord2(cell: int, scale: real, offset: real, baseScale: real): real
  {
    (cell as real * scale + offset) * baseScale
  }

  /** Everything GenerateHeights reads of the generator. */
  datatype Params = Params(
    mode: NoiseMode, baseScale: real,
    seed1: Int64, scale1: Int32, offsetX1: real, offsetY1: real, hardness: real,
    includeLayer2: bool, seed2: Int64, scale2: real, offsetX2: real, offsetY2: real,
    voxel: bool, voxelDecimal: Int32)

  predicate RoundingDefined(p: Params)
  {
    p.voxel ==> 0 <= p.voxelDecimal <= 15
  }

  /**
   * System.Math.Round is only reached for interior cells, which exist once
   * the dimension exceeds 2; a smaller grid is all zeros whatever the
   * rounding settings.
   */
  predicate HeightsDefined(p: Params, dim: int)
  {
    dim > 2 ==> RoundingDefined(p)
  }

  function Layer1(k: Kernels, p: Params, x: int, y: int): real
  {
    GetNoise(k, p.mode, p.seed1, Coord1(x, p.scale1, p.offsetX1, p.baseScale), Coord1(y, p.scale1, p.offsetY1, p.baseScale))
  }

  function Layer2(k: Kernels, p: Params, x: int, y: int): real
  {
    GetNoise(k, p.mode, p.seed2, Coord2(x, p.scale2, p.offsetX2, p.baseScale), Coord2(y, p.scale2, p.offsetY2, p.baseScale))
  }

  /** The height of interior cell (x, y): the blend of the layers, rounded once if voxel is on. */
  function CellHeight(k: Kernels, p: Params, x: int, y: int): real
    requires RoundingDefined(p)
  {
    Voxelize(Blend(Layer1(k, p, x, y), p.hardness, p.includeLayer2, Layer2(k, p, x, y)), p.voxel, p.voxelDecimal)
  }

  /** The whole grid: interior cells hold their height, the border ring 0. */
  function Expected(k: Kernels, p: Params, dim: int, x: int, y: int): real
    requires HeightsDefined(p, dim)
  {
    if Interior(dim, x, y) then CellHeight(k, p, x, y) else 0.0
  }

  /**
   * When the kernel keeps to [-1, 1] at the samples and hardness lies in
   * [0, 1], every height lies in [0, 1], rounded or not.
   */
  lemma CellHeightInUnitInterval(k: Kernels, p: Params, x: int, y: int)
    requires RoundingDefined(p) && 0.0 <= p.hardness <= 1.0
    requires -1.0 <= RawNoise(k, p.mode, p.seed1, Coord1(x, p.scale1, p.offsetX1, p.baseScale), Coord1(y, p.scale1, p.offsetY1, p.baseScale)) <= 1.0
    requires p.includeLayer2 ==>
      -1.0 <= RawNoise(k, p.mode, p.seed2, Coord2(x, p.scale2, p.offsetX2, p.baseScale), Coord2(y, p.scale2, p.offsetY2, p.baseScale)) <= 1.0
    ensures 0.0 <= CellHeight(k, p, x, y) <= 1.0
  {
  }

  /** A voxel height is already on the voxel grid: rounding it again changes nothing. */
  lemma VoxelHeightIsRounded(k: Kernels, p: Params, x: int, y: int)
    requires RoundingDefined(p) && p.voxel
    ensures RoundDecimal(CellHeight(k, p, x, y), p.voxelDecimal) == CellHeight(k, p, x, y)
  {
    var v := Blend(Layer1(k, p, x, y), p.hardness, p.includeLayer2, Layer2(k, p, x, y));
    VoxelizeIdempotent(v, p.voxel, p.voxelDecimal);
  }

  /** With one layer and no rounding, a cell is the first layer scaled by hardness. */
  lemma SingleLayerHeight(k: Kernels, p: Params, x: int, y: int)
    requires !p.voxel && !p.includeLayer2
    ensures CellHeight(k, p, x, y) == Layer1(k, p, x, y) * p.hardness
  {
  }

  /** The generator's settings, as one value. */
  datatype Config = Config(
    randomize: bool, scroll: bool, noiseBaseScale: real, height: Int32, scrollSpeed: real,
    voxel: bool, voxelDecimal: Int32, is3DNoiseModeEnabled: bool, noiseType: NoiseType,
    scrollOffset: real, terrainDimension: Int32,
    noise01Seed: Int64, noise01Scale: Int32, hardness: real, offsetX01: real, offsetY01: real,
    includeLayer2: bool, noise02Seed: Int64, noise02Scale: real, offsetX02: real, offsetY02: real)

  /** What GenerateHeights reads of a configuration. */
  function ParamsOf(c: Config): Params
  {
    Params(NoiseMode(c.noiseType, c.is3DNoiseModeEnabled, c.scrollOffset), c.noiseBaseScale,
           c.noise01Seed, c.noise01Scale, c.offsetX01, c.offsetY01, c.hardness,
           c.includeLayer2, c.noise02Seed, c.noise02Scale, c.offsetX02, c.offsetY02,
           c.voxel, c.voxelDecimal)
  }

  /** The key part of Update: toggles, the M swap, then + and -. */
  function PressStep(c: Config, keys: Keys): Config
  {
    c.(scroll := c.scroll != keys.x, randomize := c.randomize != keys.z,
       includeLayer2 := c.includeLayer2 != keys.e,
       is3DNoiseModeEnabled := c.is3DNoiseModeEnabled != keys.v,
       noiseType := if keys.m then SwapLattice(c.noiseType) else c.noiseType,
       hardness := HardnessAfter(c.hardness, keys.plus, keys.minus))
  }

  /**
   * The randomising part of Update: new seeds and offsets while randomize
   * is on.  The second seed is the exact sum; RandomSeeds shows that the
   * 64-bit arithmetic of the source computes it without wrapping.
   */
  function RandomStep(c: Config, draws: Draws): Config
    requires DrawsInRange(draws)
  {
    if c.randomize then
      c.(noise01Seed := draws.seed1, noise02Seed := draws.seed1 + draws.seed2 + TWO_31,
         offsetX01 := draws.offsetX01 as real, offsetY01 := draws.offsetY01 as real,
         offsetX02 := draws.offsetX02 as real, offsetY02 := draws.offsetY02 as real)
    else c
  }

  /** The scrolling part of Update. */
  function ScrollStep(c: Config): Config
  {
    if c.scroll then c.(scrollOffset := c.scrollOffset + c.scrollSpeed * c.noiseBaseScale) else c
  }

  /** The settings after one frame of Update. */
  function Step(c: Config, keys: Keys, draws: Draws): Config
    requires DrawsInRange(draws)
  {
    ScrollStep(RandomStep(PressStep(c, keys), draws))
  }

  /** Whether a frame regenerates the terrain: scroll is on afterwards, or R was pressed. */
  function Regenerates(c: Config, keys: Keys, draws: Draws): bool
    requires DrawsInRange(draws)
  {
    Step(c, keys, draws).scroll || keys.r
  }

  /**
   * A frame keeps hardness in [0, 1] once it is there, and brings it there
   * whenever + or - is pressed.
   */
  lemma StepHardness(c: Config, keys: Keys, draws: Draws)
    requires DrawsInRange(draws)
    ensures 0.0 <= c.hardness <= 1.0 || keys.plus || keys.minus ==> 0.0 <= Step(c, keys, draws).hardness <= 1.0
    ensures !keys.plus && !keys.minus ==> Step(c, keys, draws).hardness == c.hardness
  {
  }

  /**
   * After a randomising frame the first seed is the first draw and the
   * second lies 1 to 2^32 - 1 above it; without randomize neither the seeds
   * nor the offsets move.
   */
  lemma StepSeeds(c: Config, keys: Keys, draws: Draws)
    requires DrawsInRange(draws)
    ensures var n := Step(c, keys, draws);
            n.randomize == (c.randomize != keys.z) &&
            (n.randomize ==> n.noise01Seed == draws.seed1 && 1 <= n.noise02Seed - n.noise01Seed < TWO_32) &&
            (!n.randomize ==> n.noise01Seed == c.noise01Seed && n.noise02Seed == c.noise02Seed &&
                              n.offsetX01 == c.offsetX01 && n.offsetY01 == c.offsetY01 &&
                              n.offsetX02 == c.offsetX02 && n.offsetY02 == c.offsetY02)
  {
  }

  /** The scroll offset advances by scrollSpeed * noiseBaseScale exactly in scrolling frames. */
  lemma StepScroll(c: Config, keys: Keys, draws: Draws)
    requires DrawsInRange(draws)
    ensures var n := Step(c, keys, draws);
            n.scrollOffset == if n.scroll then c.scrollOffset + c.scrollSpeed * c.noiseBaseScale else c.scrollOffset
    ensures Regenerates(c, keys, draws) <==> (c.scroll != keys.x) || keys.r
  {
  }

  /**
   * Update never touches the grid's shape, the scales or the rounding
   * settings, so a configuration GenerateHeights accepts stays acceptable.
   */
  lemma StepKeepsGrid(c: Config, keys: Keys, draws: Draws)
    requires DrawsInRange(draws)
    ensures var n := Step(c, keys, draws);
            n.terrainDimension == c.terrainDimension && n.height == c.height &&
            n.voxel == c.voxel && n.voxelDecimal == c.voxelDecimal &&
            n.noise01Scale == c.noise01Scale && n.noise02Scale == c.noise02Scale &&
            n.noiseBaseScale == c.noiseBaseScale && n.scrollSpeed == c.scrollSpeed
    ensures RoundingDefined(ParamsOf(c)) ==> RoundingDefined(ParamsOf(Step(c, keys, draws)))
    ensures HeightsDefined(ParamsOf(c), c.terrainDimension) ==>
              HeightsDefined(ParamsOf(Step(c, keys, draws)), Step(c, keys, draws).terrainDimension)
  {
  }

  /** Only M changes the noise type, and it swaps the two lattice kernels. */
  lemma StepNoiseType(c: Config, keys: Keys, draws: Draws)
    requires DrawsInRange(draws)
    ensures Step(c, keys, draws).noiseType == if keys.m then SwapLattice(c.noiseType) else c.noiseType
  {
    var p := PressStep(c, keys);
    var r := RandomStep(p, draws);
    assert r.noiseType == p.noiseType;
    assert ScrollStep(r).noiseType == r.noiseType;
  }

  /** Two frames that press M restore the noise type. */
  lemma MTwiceRestoresNoiseType(c: Config, keys1: Keys, keys2: Keys, draws1: Draws, draws2: Draws)
    requires DrawsInRange(draws1) && DrawsInRange(draws2) && keys1.m && keys2.m
    ensures Step(Step(c, keys1, draws1), keys2, draws2).noiseType == c.noiseType
  {
    StepNoiseType(c, keys1, draws1);
    StepNoiseType(Step(c, keys1, draws1), keys2, draws2);
    SwapLatticeTwice(c.noiseType);
  }

  class GradientNoiseTerrainGenerator {
    /** The serialized settings, updated in place by Update. */
    var config: Config
    /** The kernels GetNoise dispatches to. */
    const kernels: Kernels

    /** The inspector defaults; OpenSimplex2 comes in from outside. */
    constructor (simplex2: (Int64, real, real) -> real, simplex3: (Int64, real, real, real) -> real)
      ensures config == Config(false, false, 0.01, 100, 5.0, false, 2, false, SimplexType, 0.0, 256,
                               0, 4, 0.25, 0.0, 0.0, false, 1, 0.8, 0.0, 0.0)
      ensures kernels == Kernels(simplex2, simplex3, Lattice.Noise3_ImproveXY, Lattice.Noise3_UnrotatedBase)
      ensures LatticeKernels(kernels)
    {
      config := Config(false, false, 0.01, 100, 5.0, false, 2, false, SimplexType, 0.0, 256,
                       0, 4, 0.25, 0.0, 0.0, false, 1, 0.8, 0.0, 0.0);
      kernels := Kernels(simplex2, simplex3, Lattice.Noise3_ImproveXY, Lattice.Noise3_UnrotatedBase);
    }

    function Settings(): Params
      reads this
    {
      ParamsOf(config)
    }

    /** The body of GenerateHeights' inner loop: the height of cell (x, y). */
    method ComputeCell(x: int, y: int) returns (noiseValue: real)
      requires RoundingDefined(Settings())
      ensures noiseValue == CellHeight(kernels, Settings(), x, y)
    {
      var c := config;
      var p := Settings();
      var mode := NoiseMode(c.noiseType, c.is3DNoiseModeEnabled, c.scrollOffset);
      var xCoord := Coord1(x, c.noise01Scale, c.offsetX01, c.noiseBaseScale);
      var yCoord := Coord1(y, c.noise01Scale, c.offsetY01, c.noiseBaseScale);
      var noise1 := GetNoise(kernels, mode, c.noise01Seed, xCoord, yCoord);
      assert noise1 == Layer1(kernels, p, x, y);
      noiseValue := noise1 * c.hardness;
      if c.includeLayer2 {
        var xCoord2 := Coord2(x, c.noise02Scale, c.offsetX02, c.noiseBaseScale);
        var yCoord2 := Coord2(y, c.noise02Scale, c.offsetY02, c.noiseBaseScale);
        var noise2 := GetNoise(kernels, mode, c.noise02Seed, xCoord2, yCoord2);
        assert noise2 == Layer2(kernels, p, x, y);
        noiseValue := noiseValue + noise2 * (1.0 - c.hardness);
      }
      assert noiseValue == Blend(Layer1(kernels, p, x, y), p.hardness, p.includeLayer2, Layer2(kernels, p, x, y));
      if c.voxel {
        noiseValue := RoundDecimal(noiseValue, c.voxelDecimal);
      }
    }

    /**
     * GenerateHeights: a terrainDimension-square grid whose interior cells
     * hold CellHeight and whose border ring stays 0.  System.Math.Round
     * throws for a voxelDecimal outside 0..15 once there is an interior
     * cell to round, and a negative dimension throws on allocation; both
     * are required away.
     */
    method GenerateHeights() returns (heights: array2<real>)
      requires 0 <= config.terrainDimension && HeightsDefined(Settings(), config.terrainDimension)
      ensures heights.Length0 == config.terrainDimension && heights.Length1 == config.terrainDimension
      ensures forall x, y | 0 <= x < config.terrainDimension && 0 <= y < config.terrainDimension ::
        heights[x, y] == Expected(kernels, Settings(), config.terrainDimension, x, y)
    {
      var dim := config.terrainDimension;
      heights := new real[dim, dim]((_, _) => 0.0);
      var x := 1;
      while x < dim - 1
        invariant 1 <= x && (dim >= 2 ==> x <= dim - 1)
        invariant Filled(heights, Settings(), dim, x, 0)
      {
        FillRow(heights, x);
        x := x + 1;
      }
    }

    /**
     * The cells of a dim x dim grid before (x, y) in row-major order hold
     * their expected value; the later ones are still 0.
     */
    ghost predicate Filled(heights: array2<real>, p: Params, dim: int, x: int, y: int)
      requires HeightsDefined(p, dim)
      reads heights
    {
      heights.Length0 == dim && heights.Length1 == dim &&
      forall a, b | 0 <= a < dim && 0 <= b < dim ::
        heights[a, b] == if a < x || (a == x && b < y) then Expected(kernels, p, dim, a, b) else 0.0
    }

    /** One pass of GenerateHeights' outer loop: the interior of row x. */
    method FillRow(heights: array2<real>, x: int)
      requires 1 <= x < config.terrainDimension - 1 && RoundingDefined(Settings())
      requires Filled(heights, Settings(), config.terrainDimension, x, 0)
      modifies heights
      ensures Filled(heights, Settings(), config.terrainDimension, x + 1, 0)
    {
      var dim := config.terrainDimension;
      var y := 1;
      while y < dim - 1
        invariant 1 <= y <= dim - 1
        invariant Filled(heights, Settings(), dim, x, y)
      {
        var noiseValue := ComputeCell(x, y);
        heights[x, y] := noiseValue;
        y := y + 1;
      }
    }

    /** The key part of Update: the toggles, the M swap, then + and -. */
    method PressKeys(keys: Keys)
      modifies this
      ensures config == PressStep(old(config), keys)
    {
      ToggleFlags(keys);
      if keys.m {
        SwapNoiseType();
      }
      AdjustHardness(keys.plus, keys.minus);
    }

    /** X, Z, E and V each flip their own flag. */
    method ToggleFlags(keys: Keys)
      modifies this
      ensures config == old(config).(scroll := old(config).scroll != keys.x,
                                     randomize := old(config).randomize != keys.z,
                                     includeLayer2 := old(config).includeLayer2 != keys.e,
                                     is3DNoiseModeEnabled := old(config).is3DNoiseModeEnabled != keys.v)
    {
      if keys.x {
        config := config.(scroll := !config.scroll);
      }
      if keys.z {
        config := config.(randomize := !config.randomize);
      }
      if keys.e {
        config := config.(includeLayer2 := !config.includeLayer2);
      }
      if keys.v {
        config := config.(is3DNoiseModeEnabled := !config.is3DNoiseModeEnabled);
      }
    }

    /** The M key. */
    method SwapNoiseType()
      modifies this
      ensures config == old(config).(noiseType := SwapLattice(old(config).noiseType))
    {
      if config.noiseType == UnmitigatedPerlin {
        config := config.(noiseType := DomainRotatedPerlin);
      } else if config.noiseType == DomainRotatedPerlin {
        config := config.(noiseType := UnmitigatedPerlin);
      }
    }

    /** The + key, then the - key. */
    method AdjustHardness(plus: bool, minus: bool)
      modifies this
      ensures config == old(config).(hardness := HardnessAfter(old(config).hardness, plus, minus))
    {
      if plus {
        config := config.(hardness := ScaleHardness(config.hardness, 1.1));
      }
      if minus {
        config := config.(hardness := ScaleHardness(config.hardness, 0.9));
      }
    }

    /**
     * The settings part of one frame of Update: the keys; when randomize is
     * (now) on, fresh seeds and offsets; when scroll is (now) on, the scroll
     * offset advances.
     */
    method Advance(keys: Keys, draws: Draws)
      requires DrawsInRange(draws)
      modifies this
      ensures config == Step(old(config), keys, draws)
    {
      PressKeys(keys);
      if config.randomize {
        var seeds := RandomSeeds(draws.seed1, draws.seed2);
        config := config.(noise01Seed := seeds.0, noise02Seed := seeds.1,
                          offsetX01 := draws.offsetX01 as real, offsetY01 := draws.offsetY01 as real,
                          offsetX02 := draws.offsetX02 as real, offsetY02 := draws.offsetY02 as real);
      }
      if config.scroll {
        config := config.(scrollOffset := config.scrollOffset + config.scrollSpeed * config.noiseBaseScale);
      }
    }

    /**
     * One frame of Update: the settings advance, and the terrain is
     * regenerated from the new settings exactly when scroll is (now) on or
     * R was pressed.
     */
    method Update(keys: Keys, draws: Draws) returns (heights: Option<array2<real>>)
      requires DrawsInRange(draws)
      requires Regenerates(config, keys, draws) ==>
                 0 <= config.terrainDimension && HeightsDefined(Settings(), config.terrainDimension)
      modifies this
      ensures config == Step(old(config), keys, draws)
      ensures heights.Some? <==> Regenerates(old(config), keys, draws)
      ensures heights.Some? ==> heights.value.Length0 == config.terrainDimension && heights.value.Length1 == config.terrainDimension
      ensures heights.Some? ==> forall x, y | 0 <= x < config.terrainDimension && 0 <= y < config.terrainDimension ::
        heights.value[x, y] == Expected(kernels, Settings(), config.terrainDimension, x, y)
    {
      StepKeepsGrid(config, keys, draws);
      Advance(keys, draws);
      if config.scroll || keys.r {
        var grid := GenerateHeights();
        heights := Some(grid);
      } else {
        heights := None;
      }
    }
  }
}
