/**
 * perlinTerrainGenerator: a dim x dim height grid from one or two layers of
 * Mathf.PerlinNoise, with offsets that are either drawn at random on every
 * regeneration or scrolled a fixed amount per frame, and the per-frame key
 * handling that changes its settings.
 */
module PerlinTerrain {
  import opened Wrappers
  import opened MachineInt
  import opened UnityMath
  import opened HeightField

  /** The generator's settings, as one value. */
  datatype Config = Config(
    randomize: bool, scroll: bool, height: Int32, scrollSpeed: Int32, terrainDimension: Int32,
    voxel: bool, voxelDecimal: Int32,
    noise01Scale: Int32, hardness: real, offsetX01: real, offsetY01: real,
    includeThis: bool, noise02Scale: real, offsetX02: real, offsetY02: real)

  predicate RoundingDefined(c: Config)
  {
    c.voxel ==> 0 <= c.voxelDecimal <= 15
  }

  /**
   * System.Math.Round is only reached for interior cells, which exist once
   * the dimension exceeds 2; a smaller grid is all zeros whatever the
   * rounding settings.
   */
  predicate HeightsDefined(c: Config)
  {
    c.terrainDimension > 2 ==> RoundingDefined(c)
  }

  /**
   * A sample coordinate: the cell, as a float, times the layer's scale, plus
   * the layer's offset, shrunk a hundredfold.  The integer scale of the
   * first layer is multiplied as a float, so nothing wraps.
   */
  function Coord(cell: int, scale: real, offset: real): real
  {
    (cell as real * scale + offset) * 0.01
  }

  function Layer1(perlin: Noise2, c: Config, x: int, y: int): real
  {
    perlin(Coord(x, c.noise01Scale as real, c.offsetX01), Coord(y, c.noise01Scale as real, c.offsetY01))
  }

  function Layer2(perlin: Noise2, c: Config, x: int, y: int): real
  {
    perlin(Coord(x, c.noise02Scale, c.offsetX02), Coord(y, c.noise02Scale, c.offsetY02))
  }

  /**
   * The height of interior cell (x, y): the first layer weighted by
   * hardness, plus the second weighted by 1 - hardness when includeThis is
   * on, rounded once if voxel is on.
   */
  function CellHeight(perlin: Noise2, c: Config, x: int, y: int): real
    requires RoundingDefined(c)
  {
    Voxelize(Blend(Layer1(perlin, c, x, y), c.hardness, c.includeThis, Layer2(perlin, c, x, y)), c.voxel, c.voxelDecimal)
  }

  /** The whole grid: interior cells hold their height, the border ring 0. */
  function Expected(perlin: Noise2, c: Config, x: int, y: int): real
    requires HeightsDefined(c)
  {
    if Interior(c.terrainDimension, x, y) then CellHeight(perlin, c, x, y) else 0.0
  }

  /**
   * When Mathf.PerlinNoise keeps to [0, 1] at the samples and hardness lies
   * in [0, 1], every cell of the grid lies in [0, 1], rounded or not.
   */
  lemma HeightInUnitInterval(perlin: Noise2, c: Config, x: int, y: int)
    requires HeightsDefined(c) && 0.0 <= c.hardness <= 1.0
    requires 0.0 <= Layer1(perlin, c, x, y) <= 1.0
    requires c.includeThis ==> 0.0 <= Layer2(perlin, c, x, y) <= 1.0
    ensures 0.0 <= Expected(perlin, c, x, y) <= 1.0
  {
  }

  /** A voxel height is already on the voxel grid: rounding it again changes nothing. */
  lemma VoxelHeightIsRounded(perlin: Noise2, c: Config, x: int, y: int)
    requires RoundingDefined(c) && c.voxel
    ensures RoundDecimal(CellHeight(perlin, c, x, y), c.voxelDecimal) == CellHeight(perlin, c, x, y)
  {
    var v := Blend(Layer1(perlin, c, x, y), c.hardness, c.includeThis, Layer2(perlin, c, x, y));
    VoxelizeIdempotent(v, c.voxel, c.voxelDecimal);
  }

  /** The keys Update reads. */
  datatype Keys = Keys(x: bool, z: bool, e: bool, plus: bool, minus: bool, r: bool)

  /** The four Random.Range(-99999f, 99999f) offsets of a randomising regeneration. */
  datatype Draws = Draws(offsetX01: real, offsetY01: real, offsetX02: real, offsetY02: real)

  predicate DrawsInRange(d: Draws)
  {
    -99999.0 <= d.offsetX01 <= 99999.0 && -99999.0 <= d.offsetY01 <= 99999.0 &&
    -99999.0 <= d.offsetX02 <= 99999.0 && -99999.0 <= d.offsetY02 <= 99999.0
  }

  /** The four noise offsets lie in the range Random.Range draws them from. */
  predicate OffsetsInRange(c: Config)
  {
    DrawsInRange(Draws(c.offsetX01, c.offsetY01, c.offsetX02, c.offsetY02))
  }

  /** The key part of Update: the first of X, Z, E, + and - that was pressed takes effect. */
  function PressStep(c: Config, keys: Keys): Config
  {
    if keys.x then c.(scroll := !c.scroll)
    else if keys.z then c.(randomize := !c.randomize)
    else if keys.e then c.(includeThis := !c.includeThis)
    else if keys.plus then c.(hardness := ScaleHardness(c.hardness, 1.1))
    else if keys.minus then c.(hardness := ScaleHardness(c.hardness, 0.9))
    else c
  }

  /** The scrolling part of Update: the first layer moves up by scrollSpeed, the second down. */
  function ScrollStep(c: Config): Config
  {
    if c.scroll then
      var s := c.scrollSpeed as real;
      c.(offsetX01 := c.offsetX01 + s, offsetY01 := c.offsetY01 + s,
         offsetX02 := c.offsetX02 - s, offsetY02 := c.offsetY02 - s)
    else c
  }

  /** The randomising part of GenerateTerrain: fresh offsets while randomize is on. */
  function RandomStep(c: Config, draws: Draws): Config
  {
    if c.randomize then
      c.(offsetX01 := draws.offsetX01, offsetY01 := draws.offsetY01,
         offsetX02 := draws.offsetX02, offsetY02 := draws.offsetY02)
    else c
  }

  /**
   * A randomising regeneration puts all four offsets in [-99999, 99999];
   * without randomize it changes nothing.
   */
  lemma RandomStepOffsets(c: Config, draws: Draws)
    requires DrawsInRange(draws)
    ensures c.randomize ==> OffsetsInRange(RandomStep(c, draws))
    ensures !c.randomize ==> RandomStep(c, draws) == c
  {
  }

  /** Whether a frame regenerates the terrain: scroll is on after the keys, or R was pressed. */
  function Regenerates(c: Config, keys: Keys): bool
  {
    PressStep(c, keys).scroll || keys.r
  }

  /** The settings after one frame of Update. */
  function Step(c: Config, keys: Keys, draws: Draws): Config
  {
    var s := ScrollStep(PressStep(c, keys));
    if Regenerates(c, keys) then RandomStep(s, draws) else s
  }

  function Changed(b: bool): nat
  {
    if b then 1 else 0
  }

  /**
   * One frame changes at most one of the four key-controlled settings, and
   * the key that wins is the first pressed of X, Z, E, + and -.
   */
  lemma PressChangesAtMostOne(c: Config, keys: Keys)
    ensures var n := PressStep(c, keys);
            Changed(n.scroll != c.scroll) + Changed(n.randomize != c.randomize) +
            Changed(n.includeThis != c.includeThis) + Changed(n.hardness != c.hardness) <= 1
    ensures PressStep(c, keys).scroll != c.scroll <==> keys.x
    ensures PressStep(c, keys).randomize != c.randomize <==> !keys.x && keys.z
    ensures PressStep(c, keys).includeThis != c.includeThis <==> !keys.x && !keys.z && keys.e
    ensures PressStep(c, keys).hardness != c.hardness ==> !keys.x && !keys.z && !keys.e && (keys.plus || keys.minus)
  {
  }

  /**
   * A frame keeps hardness in [0, 1] once it is there; + never lowers it and
   * - never raises it.
   */
  lemma StepHardness(c: Config, keys: Keys, draws: Draws)
    requires 0.0 <= c.hardness <= 1.0
    ensures 0.0 <= Step(c, keys, draws).hardness <= 1.0
    ensures keys.plus && !keys.x && !keys.z && !keys.e ==> c.hardness <= Step(c, keys, draws).hardness
    ensures keys.minus && !keys.plus ==> Step(c, keys, draws).hardness <= c.hardness
  {
    HardnessKeys(c.hardness);
  }

  /** A frame regenerates the terrain exactly when scroll is on after the X key, or R was pressed. */
  lemma RegenerationCondition(c: Config, keys: Keys)
    ensures Regenerates(c, keys) <==> (c.scroll != keys.x) || keys.r
  {
  }

  /**
   * In a scrolling frame without randomize, every sample of the first layer
   * moves by scrollSpeed / 100 along both axes and every sample of the
   * second layer by the same amount the other way: the two layers slide
   * diagonally past each other.
   */
  lemma ScrollSlidesLayers(c: Config, keys: Keys, draws: Draws, x: int, y: int)
    requires PressStep(c, keys).scroll && !PressStep(c, keys).randomize
    ensures var n := Step(c, keys, draws);
            var d := c.scrollSpeed as real * 0.01;
            Coord(x, n.noise01Scale as real, n.offsetX01) == Coord(x, c.noise01Scale as real, c.offsetX01) + d &&
            Coord(y, n.noise01Scale as real, n.offsetY01) == Coord(y, c.noise01Scale as real, c.offsetY01) + d &&
            Coord(x, n.noise02Scale, n.offsetX02) == Coord(x, c.noise02Scale, c.offsetX02) - d &&
            Coord(y, n.noise02Scale, n.offsetY02) == Coord(y, c.noise02Scale, c.offsetY02) - d
  {
  }

  /**
   * With randomize on, scrolling has no lasting effect: the regeneration it
   * triggers replaces all four offsets by the draws.
   */
  lemma RandomizeOverridesScroll(c: Config, keys: Keys, draws: Draws)
    requires PressStep(c, keys).scroll && PressStep(c, keys).randomize
    ensures var n := Step(c, keys, draws);
            n.offsetX01 == draws.offsetX01 && n.offsetY01 == draws.offsetY01 &&
            n.offsetX02 == draws.offsetX02 && n.offsetY02 == draws.offsetY02
  {
  }

  /**
   * Offsets stay where they are in a frame that neither scrolls nor
   * regenerates with randomize on, so the terrain only changes when it is
   * regenerated.
   */
  lemma QuietFrameKeepsOffsets(c: Config, keys: Keys, draws: Draws)
    requires !PressStep(c, keys).scroll && !(keys.r && PressStep(c, keys).randomize)
    ensures var n := Step(c, keys, draws);
            n.offsetX01 == c.offsetX01 && n.offsetY01 == c.offsetY01 &&
            n.offsetX02 == c.offsetX02 && n.offsetY02 == c.offsetY02
  {
  }

  /** The settings Update never touches: the grid's shape, the scales, the scroll speed and the rounding. */
  predicate SameGrid(a: Config, b: Config)
  {
    a.terrainDimension == b.terrainDimension && a.height == b.height &&
    a.voxel == b.voxel && a.voxelDecimal == b.voxelDecimal &&
    a.noise01Scale == b.noise01Scale && a.noise02Scale == b.noise02Scale &&
    a.scrollSpeed == b.scrollSpeed
  }

  /**
   * Update never touches the grid's shape, the scales, the scroll speed or
   * the rounding settings, so a configuration GenerateHeights accepts stays
   * acceptable.
   */
  lemma StepKeepsGrid(c: Config, keys: Keys, draws: Draws)
    ensures SameGrid(c, Step(c, keys, draws))
    ensures RoundingDefined(c) ==> RoundingDefined(Step(c, keys, draws))
    ensures HeightsDefined(c) ==> HeightsDefined(Step(c, keys, draws))
  {
    var p := PressStep(c, keys);
    PressKeepsGrid(c, keys);
    var s := ScrollStep(p);
    assert SameGrid(p, s);
    assert SameGrid(s, RandomStep(s, draws));
  }

  lemma PressKeepsGrid(c: Config, keys: Keys)
    ensures SameGrid(c, PressStep(c, keys))
  {
  }

  /** A frame in which only E is pressed. */
  const E_ONLY: Keys := Keys(false, false, true, false, false, false)

  /**
   * Without scrolling, one E frame toggles the second layer and nothing
   * else: an unrounded interior cell gains the second layer's term exactly
   * when it lacked it.  A second E frame restores the settings.
   */
  lemma ETwiceRestoresGrid(perlin: Noise2, c: Config, draws: Draws, x: int, y: int)
    requires !c.scroll && HeightsDefined(c)
    ensures var m := Step(c, E_ONLY, draws);
            m == c.(includeThis := !c.includeThis) && Step(m, E_ONLY, draws) == c
    ensures !c.voxel && Interior(c.terrainDimension, x, y) ==>
              Expected(perlin, Step(c, E_ONLY, draws), x, y)
              == Layer1(perlin, c, x, y) * c.hardness
                 + if c.includeThis then 0.0 else Layer2(perlin, c, x, y) * (1.0 - c.hardness)
  {
    var m := Step(c, E_ONLY, draws);
    assert m == c.(includeThis := !c.includeThis);
    assert Step(m, E_ONLY, draws) == c;
  }

  class PerlinTerrainGenerator {
    /** The serialized settings, updated in place by Update and GenerateTerrain. */
    var config: Config
    /** Mathf.PerlinNoise. */
    const perlin: Noise2

    /** The inspector defaults. */
    constructor (perlin: Noise2)
      ensures config == Config(true, false, 100, 5, 256, false, 2, 4, 0.25, 0.0, 0.0, false, 0.8, 0.0, 0.0)
      ensures this.perlin == perlin
    {
      config := Config(true, false, 100, 5, 256, false, 2, 4, 0.25, 0.0, 0.0, false, 0.8, 0.0, 0.0);
      this.perlin := perlin;
    }

    /** The body of GenerateHeights' inner loop, with its four branches: the height of cell (x, y). */
    method ComputeCell(x: int, y: int) returns (h: real)
      requires RoundingDefined(config)
      ensures h == CellHeight(perlin, config, x, y)
    {
      var c := config;
      var xCoord := Coord(x, c.noise01Scale as real, c.offsetX01);
      var yCoord := Coord(y, c.noise01Scale as real, c.offsetY01);
      var noise1 := perlin(xCoord, yCoord);
      assert noise1 == Layer1(perlin, c, x, y);
      if c.includeThis {
        var xCoord2 := Coord(x, c.noise02Scale, c.offsetX02);
        var yCoord2 := Coord(y, c.noise02Scale, c.offsetY02);
        var noise2 := perlin(xCoord2, yCoord2);
        assert noise2 == Layer2(perlin, c, x, y);
        assert noise1 * c.hardness + (1.0 - c.hardness) * noise2 == Blend(noise1, c.hardness, true, noise2);
        if c.voxel {
          h := RoundDecimal(noise1 * c.hardness + (1.0 - c.hardness) * noise2, c.voxelDecimal);
        } else {
          h := noise1 * c.hardness + (1.0 - c.hardness) * noise2;
        }
      } else if c.voxel {
        assert noise1 * c.hardness == Blend(noise1, c.hardness, false, Layer2(perlin, c, x, y));
        h := RoundDecimal(noise1 * c.hardness, c.voxelDecimal);
      } else {
        h := noise1 * c.hardness;
      }
    }

    /**
     * GenerateHeights: a terrainDimension-square grid whose interior cells
     * hold CellHeight and whose border ring stays 0.
     */
    method GenerateHeights() returns (heights: array2<real>)
      requires 0 <= config.terrainDimension && HeightsDefined(config)
      ensures heights.Length0 == config.terrainDimension && heights.Length1 == config.terrainDimension
      ensures forall x, y | 0 <= x < config.terrainDimension && 0 <= y < config.terrainDimension ::
        heights[x, y] == Expected(perlin, config, x, y)
    {
      var dim := config.terrainDimension;
      heights := new real[dim, dim]((_, _) => 0.0);
      var x := 1;
      while x < dim - 1
        invariant 1 <= x && (dim >= 2 ==> x <= dim - 1)
        invariant Filled(heights, config, x, 0)
      {
        FillRow(heights, x);
        x := x + 1;
      }
    }

    /**
     * The cells of the grid before (x, y) in row-major order hold their
     * expected value; the later ones are still 0.
     */
    ghost predicate Filled(heights: array2<real>, c: Config, x: int, y: int)
      requires HeightsDefined(c)
      reads heights
    {
      var dim := c.terrainDimension;
      heights.Length0 == dim && heights.Length1 == dim &&
      forall a, b | 0 <= a < dim && 0 <= b < dim ::
        heights[a, b] == if a < x || (a == x && b < y) then Expected(perlin, c, a, b) else 0.0
    }

    /** One pass of GenerateHeights' outer loop: the interior of row x. */
    method FillRow(heights: array2<real>, x: int)
      requires 1 <= x < config.terrainDimension - 1 && RoundingDefined(config)
      requires Filled(heights, config, x, 0)
      modifies heights
      ensures Filled(heights, config, x + 1, 0)
    {
      var dim := config.terrainDimension;
      var y := 1;
      while y < dim - 1
        invariant 1 <= y <= dim - 1
        invariant Filled(heights, config, x, y)
      {
        var h := ComputeCell(x, y);
        heights[x, y] := h;
        y := y + 1;
      }
    }

    /**
     * GenerateTerrain (also what Start does): fresh offsets when randomize
     * is on, then the grid of the resulting settings.
     */
    method GenerateTerrain(draws: Draws) returns (heights: array2<real>)
      requires DrawsInRange(draws)
      requires 0 <= config.terrainDimension && HeightsDefined(config)
      modifies this
      ensures config == RandomStep(old(config), draws)
      ensures old(config).randomize ==> OffsetsInRange(config)
      ensures heights.Length0 == config.terrainDimension && heights.Length1 == config.terrainDimension
      ensures forall x, y | 0 <= x < config.terrainDimension && 0 <= y < config.terrainDimension ::
        heights[x, y] == Expected(perlin, config, x, y)
    {
      if config.randomize {
        config := config.(offsetX01 := draws.offsetX01, offsetY01 := draws.offsetY01,
                          offsetX02 := draws.offsetX02, offsetY02 := draws.offsetY02);
      }
      heights := GenerateHeights();
    }

    /** The key part of Update: the first of X, Z, E, + and - that was pressed. */
    method PressKeys(keys: Keys)
      modifies this
      ensures config == PressStep(old(config), keys)
    {
      if keys.x {
        config := config.(scroll := !config.scroll);
      } else if keys.z {
        config := config.(randomize := !config.randomize);
      } else if keys.e {
        config := config.(includeThis := !config.includeThis);
      } else if keys.plus {
        config := config.(hardness := Clamp(config.hardness * 1.1, 0.0, 1.0));
      } else if keys.minus {
        config := config.(hardness := Clamp(config.hardness * 0.9, 0.0, 1.0));
      }
    }

    /** The scrolling offsets: the first layer's move up by scrollSpeed, the second's down. */
    method SlideOffsets()
      requires config.scroll
      modifies this
      ensures config == ScrollStep(old(config))
    {
      var s := config.scrollSpeed as real;
      config := config.(offsetX01 := config.offsetX01 + s, offsetY01 := config.offsetY01 + s,
                        offsetX02 := config.offsetX02 - s, offsetY02 := config.offsetY02 - s);
    }

    /**
     * One frame of Update: the keys; then, when scroll is on, the offsets
     * slide and the terrain is regenerated; otherwise R regenerates it.
     */
    method Update(keys: Keys, draws: Draws) returns (heights: Option<array2<real>>)
      requires DrawsInRange(draws)
      requires Regenerates(config, keys) ==> 0 <= config.terrainDimension && HeightsDefined(config)
      modifies this
      ensures config == Step(old(config), keys, draws)
      ensures heights.Some? && PressStep(old(config), keys).randomize ==> OffsetsInRange(config)
      ensures heights.Some? <==> Regenerates(old(config), keys)
      ensures heights.Some? ==> heights.value.Length0 == config.terrainDimension && heights.value.Length1 == config.terrainDimension
      ensures heights.Some? ==> forall x, y | 0 <= x < config.terrainDimension && 0 <= y < config.terrainDimension ::
        heights.value[x, y] == Expected(perlin, config, x, y)
    {
      StepKeepsGrid(config, keys, draws);
      PressKeys(keys);
      if config.scroll {
        SlideOffsets();
        var grid := GenerateTerrain(draws);
        heights := Some(grid);
      } else if keys.r {
        var grid := GenerateTerrain(draws);
        heights := Some(grid);
      } else {
        heights := None;
      }
    }
  }
}
