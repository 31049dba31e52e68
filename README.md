# Procedural terrain generation, modelled in Dafny

This project models the algorithmic core of a Unity tech demo that generates
terrain procedurally:

- **`DomainRotatedPerlin`**, a hash-based 3D gradient noise kernel with
  domain rotation. The model covers:
  - the 64-bit wrapping lattice hash;
  - the gradient-index mask with its sign-extending shift;
  - the truncate-then-correct floor;
  - the one-time gradient table (a normalise loop and a two-counter tiling
    loop);
  - the trilinear fade blend and the two domain rotations, as algebra over
    `real`.
- **`GradientNoiseTerrainGenerator`** and **`perlinTerrainGenerator`**:
  - a square height grid from one or two weighted noise layers, with
    optional decimal rounding;
  - the interior cells are written and the border ring stays 0;
  - the per-frame `Update` logic that toggles flags, swaps the noise kernel,
    clamps hardness, redraws seeds and offsets, and scrolls.
- **`VoronoiTerrainGenerator`**:
  - `regionAmount` random centroids plus the sentinel (0, 0);
  - a running-minimum search per cell;
  - a path/region classification by the ratio `smallestDst /
    secondSmallestDst`;
  - a one-hot splat map, an optional clamped Perlin overlay, and the list of
    path cells recorded in scan order with swapped coordinates.
- **`VoronoiDiagram`**: a sprite whose pixels take the colour of their
  nearest centroid, at pixel index `x * imageDim.x + y`.
- **`BlueNoiseSprite`**: greedy rejection sampling of points at least
  `distance` apart, then one object per kept point that is not a path cell.

Modules:

| module | file | what it holds |
|---|---|---|
| `Wrappers` | wrappers.dfy | `Option` and `Result` |
| `MachineInt` | machine_int.dfy | C# `int`/`long`, unchecked wrap-around and `^` |
| `UnityMath` | unity_math.dfy | `Mathf.Clamp`, `float.MaxValue`, `System.Math.Round(v, digits)` (half to even), `Vector2Int` |
| `DomainRotatedPerlin` | domain_rotated_perlin.dfy | the noise kernel and its gradient table |
| `HeightField` | height_field.dfy | what the two noise generators share: the border ring, the hardness keys, the blend, the rounding |
| `GradientNoiseTerrain` | gradient_noise_terrain_generator.dfy | `GradientNoiseTerrainGenerator` |
| `PerlinTerrain` | perlin_terrain_generator.dfy | `perlinTerrainGenerator` |
| `CentroidSearch` | centroid_search.dfy | the running-minimum walk and the centroid array, which both Voronoi scripts use |
| `PathRecord`, `VoronoiTerrain` | voronoi_terrain_generator.dfy | `VoronoiTerrainGenerator` |
| `VoronoiDiagram` | voronoi_diagram.dfy | `VoronoiDiagram` |
| `BlueNoise` | blue_noise_sprite.dfy | `BlueNoiseSprite` |

How the model is built:

- **State.** Each MonoBehaviour that updates its own fields is a `class`.
  The two noise generators keep their serialized settings as one `config`
  datatype field. Each of their frames is specified by a pure `Step`
  function on that datatype, and the lemmas are stated about `Step`.
- **Grids.** Grids are `array2`/`array3` and are filled by loops proved
  against a per-cell specification function.
- **Inputs from outside.** Random draws, key presses and foreign functions
  are parameters:
  - `Random.Range` results arrive as values or sequences;
  - key presses arrive as a `Keys` record;
  - `Mathf.PerlinNoise`, OpenSimplex2 and `Vector2.Distance` are
    function-typed values.

## Behaviour worth knowing

- **No centroids drawn.** With only the sentinel centroid a cell is not
  always a region. `secondSmallestDst` stays `float.MaxValue`, so the cell
  is a path exactly when `dist / float.MaxValue > pathThreshold`
  (`SentinelOnlyRatio`).
- **`secondSmallestDst` is not the second-nearest distance.** It is the
  running minimum that the final minimum replaced (`SecondIsEarlierMinimum`,
  `SecondMissesLaterCentroid`).
- **No validation errors.** No error is raised for a small dimension or a
  negative region count:
  - in the two noise generators a dimension below 3 writes no cell, so the
    grid stays all zeros; `getVoronoi` writes every cell, border included,
    whatever the dimension;
  - with `regionAmount` equal to -1 the centroid array gets length 0 and
    the store of the sentinel at index -1 throws; below -1 the allocation
    itself throws. The model requires a non-negative `regionAmount`.
- **Voronoi heights can exceed 1.** They lie in `[0, voronoiScale + 0.75]`,
  not `[0, 1]` (`HeightBounds`).

## Model

| member | source | states |
|---|---|---|
| MachineInt.Wrap32 | Assets/Scenes/Common/DomainRotatedPerlin.cs:91 | an unchecked `int` result is congruent to the exact value modulo 2^32 and equals it when it fits |
| MachineInt.Wrap64 | Assets/Scenes/Common/DomainRotatedPerlin.cs:50 | an unchecked `long` result is congruent to the exact value modulo 2^64 and equals it when it fits |
| MachineInt.Wrap64AddWrapped | Assets/Scenes/Common/DomainRotatedPerlin.cs:50-59 | wrapping a product and then adding with wrap-around is the same as wrapping the exact sum |
| MachineInt.Xor64 | Assets/Scenes/Common/DomainRotatedPerlin.cs:81 | C# `^` on `long`; Xor64Laws states that it is the bitwise xor of the two's-complement patterns, commutative, and 0 on equal operands |
| MachineInt.Xor64Laws | Assets/Scenes/Common/DomainRotatedPerlin.cs:81 | the bit pattern of `a ^ b` is the xor of the operands' patterns; `a ^ b == b ^ a`; `a ^ a == 0` |
| UnityMath.Clamp | Assets/Scenes/Common/GradientNoiseTerrainGenerator.cs:64 | the result lies in [min, max], is the value when it is inside, and is the violated bound otherwise |
| UnityMath.RoundHalfEven | Assets/Scenes/Common/GradientNoiseTerrainGenerator.cs:136 | within half a unit of v, exact on integers, and even at a midpoint |
| UnityMath.RoundDecimal | Assets/Scenes/Common/GradientNoiseTerrainGenerator.cs:136 | `Math.Round(v, digits)` is within 0.5·10^-digits of v, and 10^digits times it is the half-even rounding of 10^digits·v |
| UnityMath.RoundDecimalUnitInterval | Assets/Scenes/PerlinScene/perlinTerrainGenerator.cs:105 | rounding keeps a value of [0, 1] in [0, 1] |
| UnityMath.RoundDecimalIdempotent | Assets/Scenes/Common/GradientNoiseTerrainGenerator.cs:136 | rounding an already rounded value changes nothing |
| DomainRotatedPerlin.Truncate | Assets/Scenes/Common/DomainRotatedPerlin.cs:90 | `(int)x` is the integer within 1 of x on the side of zero |
| DomainRotatedPerlin.CastToInt32 | Assets/Scenes/Common/DomainRotatedPerlin.cs:90 | on the `int` range the cast is truncation toward zero |
| DomainRotatedPerlin.FastFloor | Assets/Scenes/Common/DomainRotatedPerlin.cs:89-92 | on the `int` range the result is the mathematical floor, negative non-integers included |
| DomainRotatedPerlin.FastFloorOfInteger | Assets/Scenes/Common/DomainRotatedPerlin.cs:89-92 | an integral coordinate floors to itself |
| DomainRotatedPerlin.HashShift | Assets/Scenes/Common/DomainRotatedPerlin.cs:83 | C# `hash >> 58` on a `long`: the low six bits are the hash's top six bits and the 58 vacated bits are all copies of the sign bit |
| DomainRotatedPerlin.GradIndexOfHash | Assets/Scenes/Common/DomainRotatedPerlin.cs:83-84 | the gradient offset `gi` is a multiple of 4 in [0, 1020] |
| DomainRotatedPerlin.GradIndexBits | Assets/Scenes/Common/DomainRotatedPerlin.cs:83-84 | the index bits 2..5 mix in the top hash bits, and the sign extension flips bits 6..9 exactly for a negative hash |
| DomainRotatedPerlin.GradIndex | Assets/Scenes/Common/DomainRotatedPerlin.cs:81-84 | the corner hash (xor of seed and the three corner primes, multiplied with wrap-around) reduced to a gradient offset; GradIndexOfHash bounds it to a multiple of 4 in [0, 1020] and GradIndexBits states its bits |
| DomainRotatedPerlin.Slot | Assets/Scenes/Common/DomainRotatedPerlin.cs:85 | the bitwise or of gi and k equals `gi + k`, which is component k of gradient gi/4 and lies inside the 1024-entry table |
| DomainRotatedPerlin.DotGradient | Assets/Scenes/Common/DomainRotatedPerlin.cs:85 | the lookup is the dot product of gradient number gi/4 with the offset |
| DomainRotatedPerlin.Grad3PaddingIsZero | Assets/Scenes/Common/DomainRotatedPerlin.cs:106-156 | every fourth entry of the base table is 0 |
| DomainRotatedPerlin.GradientsPaddingIsZero | Assets/Scenes/Common/DomainRotatedPerlin.cs:157-163 | every table entry at an index ≡ 3 (mod 4) is 0 |
| DomainRotatedPerlin.Gradients3D | Assets/Scenes/Common/DomainRotatedPerlin.cs:157-163 | the normalised base table tiled to 1024 entries; GradientsPaddingIsZero shows every fourth lane is 0, and BuildGradients3D's loops produce exactly this table |
| DomainRotatedPerlin.BuildGradients3D | Assets/Scenes/Common/DomainRotatedPerlin.cs:104-164 | the table has 1024 entries and entry i is base entry i mod 192 divided by NORMALIZER_3D |
| DomainRotatedPerlin.Normalise | Assets/Scenes/Common/DomainRotatedPerlin.cs:157-159 | each entry is divided by NORMALIZER_3D in place |
| DomainRotatedPerlin.Tile | Assets/Scenes/Common/DomainRotatedPerlin.cs:160-163 | the two-counter loop leaves `dest[i] == source[i % 192]` for every i |
| DomainRotatedPerlin.FadeCurve | Assets/Scenes/Common/DomainRotatedPerlin.cs:95-97 | the fade is 0 at 0 and 1 at 1 |
| DomainRotatedPerlin.FadeCurveSymmetric | Assets/Scenes/Common/DomainRotatedPerlin.cs:95-97 | the fade curve is point-symmetric: f(1 - t) = 1 - f(t) |
| DomainRotatedPerlin.Lerp | Assets/Scenes/Common/DomainRotatedPerlin.cs:63-69 | the blend is the first value at fade 0 and the second at fade 1 |
| DomainRotatedPerlin.Trilinear | Assets/Scenes/Common/DomainRotatedPerlin.cs:63-71 | with all fades 0 the blend is the base corner's value, and with all fades 1 it is the far corner's |
| DomainRotatedPerlin.NeighbourCornerHashInput | Assets/Scenes/Common/DomainRotatedPerlin.cs:50-59 | `c*P + P` in wrapping 64-bit arithmetic equals `(c+1)*P`, so neighbouring cells hash shared corners alike |
| DomainRotatedPerlin.GradAtCorner | Assets/Scenes/Common/DomainRotatedPerlin.cs:80-86 | a corner's contribution at the corner itself is 0 |
| DomainRotatedPerlin.Grad | Assets/Scenes/Common/DomainRotatedPerlin.cs:80-86 | the hashed corner gradient dotted with the offset; DotGradient reads the three components of one gradient, and GradAtCorner shows the value is 0 at the corner itself |
| DomainRotatedPerlin.UnrotatedBaseAtLattice | Assets/Scenes/Common/DomainRotatedPerlin.cs:47-72 | the unrotated noise is 0 at every lattice point |
| DomainRotatedPerlin.Noise3_UnrotatedBase | Assets/Scenes/Common/DomainRotatedPerlin.cs:47-72 | the trilinear fade blend of the eight corner gradients; UnrotatedBaseAtLattice shows it is 0 at every lattice point, NeighbourCornerHashInput that adjacent cells hash a shared corner alike |
| DomainRotatedPerlin.RotateImproveXY | Assets/Scenes/Common/DomainRotatedPerlin.cs:24-29 | the improve-XY rotation; ImproveXYOnZAxis shows it sends the Z axis up the lattice's main diagonal |
| DomainRotatedPerlin.Noise3_ImproveXY | Assets/Scenes/Common/DomainRotatedPerlin.cs:21-32 | the base kernel at the rotated point; ImproveXYOnZAxis gives its values along the Z axis |
| DomainRotatedPerlin.RotateImproveXZ | Assets/Scenes/Common/DomainRotatedPerlin.cs:37-42 | the improve-XZ rotation; RotateImproveXZIsSwappedXY shows it is improve-XY with Y and Z exchanged |
| DomainRotatedPerlin.Noise3_ImproveXZ | Assets/Scenes/Common/DomainRotatedPerlin.cs:34-45 | the base kernel at the XZ-rotated point; ImproveXZIsSwappedImproveXY relates it to the improve-XY rotation |
| DomainRotatedPerlin.ImproveXYOnZAxis | Assets/Scenes/Common/DomainRotatedPerlin.cs:21-32 | Noise3_ImproveXY on the Z axis samples the base on the main diagonal (z/√3, z/√3, z/√3) |
| DomainRotatedPerlin.RotateImproveXZIsSwappedXY | Assets/Scenes/Common/DomainRotatedPerlin.cs:21-45 | the XZ rotation of (x, y, z) is the XY rotation of (x, z, y) with its second and third outputs swapped |
| DomainRotatedPerlin.ImproveXZIsSwappedImproveXY | Assets/Scenes/Common/DomainRotatedPerlin.cs:34-45 | Noise3_ImproveXZ evaluates the base at the swapped XY rotation of (x, z, y) |
| HeightField.BorderIsRing | Assets/Scenes/Common/GradientNoiseTerrainGenerator.cs:122-124 | a cell is left unwritten exactly when it lies in row or column 0 or dim-1 |
| HeightField.ScaleHardness | Assets/Scenes/Common/GradientNoiseTerrainGenerator.cs:63-68 | the scaled hardness lies in [0, 1], equals the product when that is in range, and is clamped otherwise |
| HeightField.HardnessKeys | Assets/Scenes/Common/GradientNoiseTerrainGenerator.cs:63-68 | from [0, 1], + never lowers hardness and - never raises it, and 0 is stuck under + |
| HeightField.Blend | Assets/Scenes/Common/GradientNoiseTerrainGenerator.cs:127-133 | layers in [0, 1] blend into [0, 1], equal layers blend to themselves, and one layer gives n1·hardness |
| HeightField.Voxelize | Assets/Scenes/Common/GradientNoiseTerrainGenerator.cs:135-136 | with voxel off the value is unchanged; with voxel on it moves by at most half a step and stays in [0, 1] |
| HeightField.VoxelizeIdempotent | Assets/Scenes/Common/GradientNoiseTerrainGenerator.cs:135-136 | voxelizing twice is voxelizing once |
| GradientNoiseTerrain.RawNoise | Assets/Scenes/Common/GradientNoiseTerrainGenerator.cs:101-117 | the kernel GetNoise dispatches to; PlaneModeIsShiftedSlice shows the 2D mode is the shifted z = 0 slice of the 3D mode, UnmitigatedAtLattice that the unrotated kernel gives height 0.5 at lattice points |
| GradientNoiseTerrain.GetNoise | Assets/Scenes/Common/GradientNoiseTerrainGenerator.cs:101-119 | the kernel's [-1, 1] maps onto [0, 1], the output is 0.5 exactly when the kernel gives 0, and 2r - 1 recovers the kernel value |
| GradientNoiseTerrain.PlaneModeIsShiftedSlice | Assets/Scenes/Common/GradientNoiseTerrainGenerator.cs:106-115 | for the lattice kernels, 2D mode is 3D mode at offset 0 sampled at (x + s, y + s) |
| GradientNoiseTerrain.UnmitigatedAtLattice | Assets/Scenes/Common/GradientNoiseTerrainGenerator.cs:113-118 | the unrotated kernel at a lattice sample gives height 0.5 in either mode |
| GradientNoiseTerrain.SwapLattice | Assets/Scenes/Common/GradientNoiseTerrainGenerator.cs:59-62 | M exchanges the two lattice kernels and leaves SimplexType unchanged |
| GradientNoiseTerrain.SwapLatticeTwice | Assets/Scenes/Common/GradientNoiseTerrainGenerator.cs:59-62 | swapping twice restores the type |
| GradientNoiseTerrain.HardnessAfter | Assets/Scenes/Common/GradientNoiseTerrainGenerator.cs:63-68 | after + or - hardness is in [0, 1], it stays there, and it is unchanged when neither key is pressed |
| GradientNoiseTerrain.RandomSeeds | Assets/Scenes/Common/GradientNoiseTerrainGenerator.cs:71-72 | the 64-bit seed arithmetic never wraps, and the second seed lies between 1 and 2^32 - 1 above the first |
| GradientNoiseTerrain.CellHeight | Assets/Scenes/Common/GradientNoiseTerrainGenerator.cs:125-136 | an interior cell's height; CellHeightInUnitInterval bounds it to [0, 1], VoxelHeightIsRounded puts it on the voxel grid, SingleLayerHeight gives the one-layer case |
| GradientNoiseTerrain.Expected | Assets/Scenes/Common/GradientNoiseTerrainGenerator.cs:121-141 | the whole grid: interior cells hold CellHeight, the border ring 0; GenerateHeights's loops produce exactly this grid |
| GradientNoiseTerrain.CellHeightInUnitInterval | Assets/Scenes/Common/GradientNoiseTerrainGenerator.cs:125-138 | with kernel values in [-1, 1] and hardness in [0, 1], every height is in [0, 1] |
| GradientNoiseTerrain.VoxelHeightIsRounded | Assets/Scenes/Common/GradientNoiseTerrainGenerator.cs:135-136 | a voxel height is already rounded, so rounding it again changes nothing |
| GradientNoiseTerrain.SingleLayerHeight | Assets/Scenes/Common/GradientNoiseTerrainGenerator.cs:125-127 | with one layer and no rounding, a cell is layer 1 times hardness |
| GradientNoiseTerrain.PressStep | Assets/Scenes/Common/GradientNoiseTerrainGenerator.cs:47-68 | the key part of a frame, every pressed key taking effect; StepHardness, StepNoiseType and MTwiceRestoresNoiseType state its effect |
| GradientNoiseTerrain.RandomStep | Assets/Scenes/Common/GradientNoiseTerrainGenerator.cs:70-77 | the randomising part of a frame; StepSeeds states the new seeds and offsets, RandomSeeds that the second seed's sum does not wrap |
| GradientNoiseTerrain.ScrollStep | Assets/Scenes/Common/GradientNoiseTerrainGenerator.cs:79-81 | the scrolling part of a frame; StepScroll states the offset advance |
| GradientNoiseTerrain.Step | Assets/Scenes/Common/GradientNoiseTerrainGenerator.cs:46-81 | one frame's settings; StepKeepsGrid shows the grid settings are unchanged and GenerateHeights stays applicable, and Update's new state is Step |
| GradientNoiseTerrain.Regenerates | Assets/Scenes/Common/GradientNoiseTerrainGenerator.cs:83-85 | whether a frame regenerates; StepScroll shows it is exactly `scroll` after X or the R key |
| GradientNoiseTerrain.StepHardness | Assets/Scenes/Common/GradientNoiseTerrainGenerator.cs:63-68 | a frame keeps hardness in [0, 1], brings it there on + or -, and leaves it alone otherwise |
| GradientNoiseTerrain.StepSeeds | Assets/Scenes/Common/GradientNoiseTerrainGenerator.cs:50-77 | when randomize is on, the seeds differ by 1..2^32 - 1; when it is off, seeds and offsets stay put |
| GradientNoiseTerrain.StepScroll | Assets/Scenes/Common/GradientNoiseTerrainGenerator.cs:79-85 | the scroll offset grows by scrollSpeed·noiseBaseScale only while scrolling, and a frame regenerates iff scroll is on after X or R was pressed |
| GradientNoiseTerrain.StepKeepsGrid | Assets/Scenes/Common/GradientNoiseTerrainGenerator.cs:46-86 | Update never changes the dimension, height, scales, scroll speed or rounding settings |
| GradientNoiseTerrain.StepNoiseType | Assets/Scenes/Common/GradientNoiseTerrainGenerator.cs:59-62 | only M changes the noise type |
| GradientNoiseTerrain.MTwiceRestoresNoiseType | Assets/Scenes/Common/GradientNoiseTerrainGenerator.cs:59-62 | two frames with M pressed restore the noise type |
| GradientNoiseTerrain.GradientNoiseTerrainGenerator.constructor | Assets/Scenes/Common/GradientNoiseTerrainGenerator.cs:9-33 | the inspector defaults, and the lattice kernels are DomainRotatedPerlin's |
| GradientNoiseTerrain.GradientNoiseTerrainGenerator.ComputeCell | Assets/Scenes/Common/GradientNoiseTerrainGenerator.cs:125-138 | one cell is the blended layers, rounded once when voxel is on |
| GradientNoiseTerrain.GradientNoiseTerrainGenerator.GenerateHeights | Assets/Scenes/Common/GradientNoiseTerrainGenerator.cs:121-142 | a dim×dim grid whose interior cells hold their height and whose border ring is 0 |
| GradientNoiseTerrain.GradientNoiseTerrainGenerator.FillRow | Assets/Scenes/Common/GradientNoiseTerrainGenerator.cs:124-139 | one outer-loop pass finishes row x and leaves later rows at 0 |
| GradientNoiseTerrain.GradientNoiseTerrainGenerator.PressKeys | Assets/Scenes/Common/GradientNoiseTerrainGenerator.cs:47-68 | the key part of a frame is PressStep of the old settings |
| GradientNoiseTerrain.GradientNoiseTerrainGenerator.ToggleFlags | Assets/Scenes/Common/GradientNoiseTerrainGenerator.cs:47-58 | X, Z, E and V each flip their own flag and nothing else |
| GradientNoiseTerrain.GradientNoiseTerrainGenerator.SwapNoiseType | Assets/Scenes/Common/GradientNoiseTerrainGenerator.cs:59-62 | M sets the noise type to its swap and changes nothing else |
| GradientNoiseTerrain.GradientNoiseTerrainGenerator.AdjustHardness | Assets/Scenes/Common/GradientNoiseTerrainGenerator.cs:63-68 | + then - change only hardness |
| GradientNoiseTerrain.GradientNoiseTerrainGenerator.Advance | Assets/Scenes/Common/GradientNoiseTerrainGenerator.cs:46-81 | the settings after the keys, the randomising and the scrolling are Step of the old settings |
| GradientNoiseTerrain.GradientNoiseTerrainGenerator.Update | Assets/Scenes/Common/GradientNoiseTerrainGenerator.cs:46-86 | settings become Step of the old ones, and a grid of the new settings is produced exactly when the frame regenerates |
| PerlinTerrain.CellHeight | Assets/Scenes/PerlinScene/perlinTerrainGenerator.cs:97-116 | an interior cell's height; VoxelHeightIsRounded puts it on the voxel grid |
| PerlinTerrain.Expected | Assets/Scenes/PerlinScene/perlinTerrainGenerator.cs:90-120 | the whole grid: interior cells hold CellHeight, the border ring 0; HeightInUnitInterval bounds it to [0, 1] and GenerateHeights's loops produce exactly this grid |
| PerlinTerrain.HeightInUnitInterval | Assets/Scenes/PerlinScene/perlinTerrainGenerator.cs:97-116 | with noise in [0, 1] and hardness in [0, 1], every grid cell is in [0, 1] |
| PerlinTerrain.VoxelHeightIsRounded | Assets/Scenes/PerlinScene/perlinTerrainGenerator.cs:104-112 | a voxel height is already rounded |
| PerlinTerrain.PressStep | Assets/Scenes/PerlinScene/perlinTerrainGenerator.cs:37-51 | the key part of a frame, only the first pressed key taking effect; PressChangesAtMostOne and PressKeepsGrid state its effect |
| PerlinTerrain.ScrollStep | Assets/Scenes/PerlinScene/perlinTerrainGenerator.cs:53-58 | the scrolling part of a frame; ScrollSlidesLayers shows the two layers slide diagonally in opposite directions |
| PerlinTerrain.RandomStep | Assets/Scenes/PerlinScene/perlinTerrainGenerator.cs:75-81 | the randomising part of a regeneration; RandomStepOffsets, RandomizeOverridesScroll and QuietFrameKeepsOffsets state when offsets change and where they land |
| PerlinTerrain.RandomStepOffsets | Assets/Scenes/PerlinScene/perlinTerrainGenerator.cs:75-81 | a randomising regeneration leaves all four offsets in [-99999, 99999]; without randomize it changes nothing |
| PerlinTerrain.Step | Assets/Scenes/PerlinScene/perlinTerrainGenerator.cs:36-81 | one frame's settings; StepKeepsGrid, StepHardness and ETwiceRestoresGrid state its effect, and Update's new state is Step |
| PerlinTerrain.Regenerates | Assets/Scenes/PerlinScene/perlinTerrainGenerator.cs:53-63 | whether a frame regenerates; RegenerationCondition shows it is exactly `scroll` after X or the R key |
| PerlinTerrain.PressChangesAtMostOne | Assets/Scenes/PerlinScene/perlinTerrainGenerator.cs:37-51 | the else-if chain changes at most one setting per frame, and the first key pressed of X, Z, E, +, - wins |
| PerlinTerrain.StepHardness | Assets/Scenes/PerlinScene/perlinTerrainGenerator.cs:46-51 | hardness stays in [0, 1]; + never lowers it when it is the winning key, and - never raises it |
| PerlinTerrain.RegenerationCondition | Assets/Scenes/PerlinScene/perlinTerrainGenerator.cs:53-63 | a frame regenerates iff scroll is on after X, or R was pressed |
| PerlinTerrain.ScrollSlidesLayers | Assets/Scenes/PerlinScene/perlinTerrainGenerator.cs:53-58 | while scrolling without randomize, layer-1 samples move by +scrollSpeed/100 on both axes and layer-2 samples by -scrollSpeed/100 |
| PerlinTerrain.RandomizeOverridesScroll | Assets/Scenes/PerlinScene/perlinTerrainGenerator.cs:53-81 | with randomize on, the draws replace the scrolled offsets |
| PerlinTerrain.QuietFrameKeepsOffsets | Assets/Scenes/PerlinScene/perlinTerrainGenerator.cs:53-81 | without scrolling and without a randomising regeneration the offsets do not move |
| PerlinTerrain.StepKeepsGrid | Assets/Scenes/PerlinScene/perlinTerrainGenerator.cs:36-65 | Update never changes the dimension, height, scales, scroll speed or rounding settings |
| PerlinTerrain.PressKeepsGrid | Assets/Scenes/PerlinScene/perlinTerrainGenerator.cs:37-51 | the keys never change the grid settings |
| PerlinTerrain.ETwiceRestoresGrid | Assets/Scenes/PerlinScene/perlinTerrainGenerator.cs:43-45 | without scrolling, one E frame toggles only the second layer, so an unrounded interior cell gains the layer-2 term exactly when it lacked it; a second E frame restores the settings |
| PerlinTerrain.PerlinTerrainGenerator.constructor | Assets/Scenes/PerlinScene/perlinTerrainGenerator.cs:10-28 | the inspector defaults |
| PerlinTerrain.PerlinTerrainGenerator.ComputeCell | Assets/Scenes/PerlinScene/perlinTerrainGenerator.cs:97-116 | the four branches compute the blend, rounded iff voxel is on |
| PerlinTerrain.PerlinTerrainGenerator.GenerateHeights | Assets/Scenes/PerlinScene/perlinTerrainGenerator.cs:90-120 | a dim×dim grid whose interior holds the cell heights and whose border ring is 0 |
| PerlinTerrain.PerlinTerrainGenerator.FillRow | Assets/Scenes/PerlinScene/perlinTerrainGenerator.cs:93-118 | one outer-loop pass finishes row x |
| PerlinTerrain.PerlinTerrainGenerator.GenerateTerrain | Assets/Scenes/PerlinScene/perlinTerrainGenerator.cs:73-88 | the offsets are redrawn in [-99999, 99999] iff randomize is on, before the grid of the new settings is built |
| PerlinTerrain.PerlinTerrainGenerator.PressKeys | Assets/Scenes/PerlinScene/perlinTerrainGenerator.cs:37-51 | the key chain is PressStep of the old settings |
| PerlinTerrain.PerlinTerrainGenerator.SlideOffsets | Assets/Scenes/PerlinScene/perlinTerrainGenerator.cs:53-58 | the layer-1 offsets rise by scrollSpeed and the layer-2 offsets fall by it |
| PerlinTerrain.PerlinTerrainGenerator.Update | Assets/Scenes/PerlinScene/perlinTerrainGenerator.cs:36-65 | settings become Step of the old ones, a grid of the new settings is produced exactly when the frame regenerates, and a randomising regeneration leaves the offsets in [-99999, 99999] |
| CentroidSearch.Scan | Assets/Scenes/VoronoiScene/VoronoiTerrainGenerator.cs:141-153 | the index lies among the centroids, smallestDst ≤ secondSmallestDst ≤ float.MaxValue, and while smallestDst is still float.MaxValue so is secondSmallestDst and the index is 0 |
| CentroidSearch.ScanInvariant | Assets/Scenes/VoronoiScene/VoronoiTerrainGenerator.cs:141-153 | smallestDst is at most every distance, is the distance at `index`, and lies strictly below secondSmallestDst and every earlier distance |
| CentroidSearch.ScanStep | Assets/Scenes/VoronoiScene/VoronoiTerrainGenerator.cs:145-152 | one loop iteration, as a step of the walk |
| CentroidSearch.ScanFindsFirstNearest | Assets/Scenes/VoronoiScene/VoronoiDiagram.cs:44-51 | the index found is a nearest centroid and the first of the nearest (the comparison is strict) |
| CentroidSearch.ScanSecondPositive | Assets/Scenes/VoronoiScene/VoronoiTerrainGenerator.cs:154 | secondSmallestDst is positive, so the ratio is defined |
| CentroidSearch.SecondIsEarlierMinimum | Assets/Scenes/VoronoiScene/VoronoiTerrainGenerator.cs:147-151 | secondSmallestDst is the minimum over the centroids before `index`, not the second-nearest distance |
| CentroidSearch.SecondMissesLaterCentroid | Assets/Scenes/VoronoiScene/VoronoiTerrainGenerator.cs:147-151 | distances [1, 3] leave secondSmallestDst at float.MaxValue |
| CentroidSearch.OnlySentinel | Assets/Scenes/VoronoiScene/VoronoiTerrainGenerator.cs:141-153 | with a single centroid secondSmallestDst stays float.MaxValue |
| CentroidSearch.Closest | Assets/Scenes/VoronoiScene/VoronoiDiagram.cs:39-52 | with centroids present the closest index is in range |
| CentroidSearch.CentroidsLayout | Assets/Scenes/VoronoiScene/VoronoiTerrainGenerator.cs:103-112 | there are regionAmount + 1 centroids, the last is the sentinel (0, 0), and the drawn ones lie in the box |
| CentroidSearch.NewCentroids | Assets/Scenes/VoronoiScene/VoronoiTerrainGenerator.cs:103-113 | the filled array is the drawn centroids followed by the sentinel |
| PathRecord.RowPaths | Assets/Scenes/VoronoiScene/VoronoiTerrainGenerator.cs:118-128 | (y, x) is recorded for row x exactly when cell (x, y) passes the path test |
| PathRecord.GridPaths | Assets/Scenes/VoronoiScene/VoronoiTerrainGenerator.cs:116-135 | (y, x) is in the list exactly when cell (x, y) of the grid is a path, with coordinates swapped |
| PathRecord.RowPathsExtend | Assets/Scenes/VoronoiScene/VoronoiTerrainGenerator.cs:122-127 | appending one cell's entry extends the row's list in scan order |
| PathRecord.GridPathsExtend | Assets/Scenes/VoronoiScene/VoronoiTerrainGenerator.cs:116-135 | appending a row's entries extends the grid's list in scan order |
| PathRecord.RowPathsSorted | Assets/Scenes/VoronoiScene/VoronoiTerrainGenerator.cs:118-126 | within a row, entries are in strictly increasing column order, so none repeats |
| VoronoiTerrain.Ratio | Assets/Scenes/VoronoiScene/VoronoiTerrainGenerator.cs:154 | smallestDst/secondSmallestDst lies in [0, 1], and below 1 when there is a centroid |
| VoronoiTerrain.CellValue | Assets/Scenes/VoronoiScene/VoronoiTerrainGenerator.cs:154 | getVoronoiValue returns 0 or voronoiScale |
| VoronoiTerrain.IsPath | Assets/Scenes/VoronoiScene/VoronoiTerrainGenerator.cs:120-128 | getVoronoi's path test; PathIffAboveThreshold, NoPathAtThresholdOne and CentroidCellIsRegion characterise it |
| VoronoiTerrain.PathIffAboveThreshold | Assets/Scenes/VoronoiScene/VoronoiTerrainGenerator.cs:139-155 | a cell is a path iff the ratio exceeds pathThreshold and voronoiScale ≠ 0; the value is 0 iff the ratio exceeds the threshold or the scale is 0 |
| VoronoiTerrain.NoPathAtThresholdOne | Assets/Scenes/VoronoiScene/VoronoiTerrainGenerator.cs:154 | with pathThreshold ≥ 1 no cell is a path |
| VoronoiTerrain.CentroidCellIsRegion | Assets/Scenes/VoronoiScene/VoronoiTerrainGenerator.cs:141-154 | the cell under a centroid has ratio 0 and is a region |
| VoronoiTerrain.SentinelOnlyRatio | Assets/Scenes/VoronoiScene/VoronoiTerrainGenerator.cs:103-155 | with only the sentinel, the ratio is dist(cell, (0,0)) / float.MaxValue |
| VoronoiTerrain.PerlinValue | Assets/Scenes/VoronoiScene/VoronoiTerrainGenerator.cs:157-161 | the overlay lies in [0, 0.75] whatever the noise returns, and is the scaled noise when that is in range |
| VoronoiTerrain.CellHeight | Assets/Scenes/VoronoiScene/VoronoiTerrainGenerator.cs:130-133 | posValues[x, y]; HeightBounds bounds it to [0, voronoiScale + 0.75] |
| VoronoiTerrain.HeightBounds | Assets/Scenes/VoronoiScene/VoronoiTerrainGenerator.cs:130-161 | heights lie in [0, voronoiScale + 0.75], path cells are at most 0.75, and without the overlay the height is the Voronoi value |
| VoronoiTerrain.VoronoiTerrainGenerator.constructor | Assets/Scenes/VoronoiScene/VoronoiTerrainGenerator.cs:12-30 | the inspector defaults and an empty path list |
| VoronoiTerrain.VoronoiTerrainGenerator.SetSplatValue | Assets/Scenes/VoronoiScene/VoronoiTerrainGenerator.cs:86-99 | channel `splat` of (x, y) becomes 1 and its other channels 0, and no other cell changes |
| VoronoiTerrain.VoronoiTerrainGenerator.GetVoronoiValue | Assets/Scenes/VoronoiScene/VoronoiTerrainGenerator.cs:139-155 | the loop computes the classifier's value for the cell |
| VoronoiTerrain.VoronoiTerrainGenerator.GetVoronoi | Assets/Scenes/VoronoiScene/VoronoiTerrainGenerator.cs:101-137 | every cell, border included, holds its height; every splat cell is one-hot on its channel; the swapped path cells are appended in scan order |
| VoronoiTerrain.VoronoiTerrainGenerator.FillGrid | Assets/Scenes/VoronoiScene/VoronoiTerrainGenerator.cs:116-135 | all rows are finished, and the list grows by the grid's path entries |
| VoronoiTerrain.VoronoiTerrainGenerator.FillRow | Assets/Scenes/VoronoiScene/VoronoiTerrainGenerator.cs:118-134 | row x is finished, and the list grows by that row's entries |
| VoronoiTerrain.VoronoiTerrainGenerator.FillCell | Assets/Scenes/VoronoiScene/VoronoiTerrainGenerator.cs:120-133 | the cell gets its height and one-hot splat, and (y, x) is appended iff it is a path |
| VoronoiTerrain.VoronoiTerrainGenerator.StartGenerating | Assets/Scenes/VoronoiScene/VoronoiTerrainGenerator.cs:59-84 | pathPositions restarts empty and ends as exactly the grid's swapped path cells; the alphamap and heights are those of getVoronoi |
| VoronoiDiagram.Regions | Assets/Scenes/VoronoiScene/VoronoiDiagram.cs:20-28 | regionAmount + 1 colours, the drawn ones opaque and the last white |
| VoronoiDiagram.PixelIndexSquare | Assets/Scenes/VoronoiScene/VoronoiDiagram.cs:32 | on a square image the pixel index is in [0, w²) and determines (x, y), so it is injective |
| VoronoiDiagram.RowInRange | Assets/Scenes/VoronoiScene/VoronoiDiagram.cs:29-34 | the index of (x, y) is inside the array iff x < height |
| VoronoiDiagram.VoronoiDiagram.constructor | Assets/Scenes/VoronoiScene/VoronoiDiagram.cs:7-8 | the inspector defaults |
| VoronoiDiagram.VoronoiDiagram.GetClosestCentroidIndex | Assets/Scenes/VoronoiScene/VoronoiDiagram.cs:39-52 | the index is in range, no centroid is nearer, and every earlier centroid is strictly farther |
| VoronoiDiagram.VoronoiDiagram.NewRegions | Assets/Scenes/VoronoiScene/VoronoiDiagram.cs:20-28 | the filled array is the region colours |
| VoronoiDiagram.VoronoiDiagram.PaintRow | Assets/Scenes/VoronoiScene/VoronoiDiagram.cs:31-34 | a row runs off the array exactly when the image has a row and x ≥ height; on a square image every pixel up to the row's end holds its nearest centroid's colour |
| VoronoiDiagram.VoronoiDiagram.GetDiagram | Assets/Scenes/VoronoiScene/VoronoiDiagram.cs:18-37 | it fails (index out of range) exactly when 1 ≤ height < width; otherwise the array has width·height pixels, and on a square image each holds the colour of its nearest centroid's region |
| BlueNoise.Accepted | Assets/Scenes/VoronoiScene/BlueNoiseSprite.cs:20-32 | the kept points are at most as many as the candidates and are all candidates |
| BlueNoise.AcceptedSpaced | Assets/Scenes/VoronoiScene/BlueNoiseSprite.cs:20-32 | the kept points are pairwise at least `distance` apart |
| BlueNoise.AcceptedPrefix | Assets/Scenes/VoronoiScene/BlueNoiseSprite.cs:20-32 | points kept from a prefix of the candidates stay kept and stay first |
| BlueNoise.FirstAccepted | Assets/Scenes/VoronoiScene/BlueNoiseSprite.cs:22-31 | the first candidate is always kept, and kept first |
| BlueNoise.AcceptedMaximal | Assets/Scenes/VoronoiScene/BlueNoiseSprite.cs:22-31 | every candidate is kept or lies closer than `distance` to a kept point |
| BlueNoise.AcceptedEmbeds | Assets/Scenes/VoronoiScene/BlueNoiseSprite.cs:18-32 | the kept points are an order-preserving subsequence of the candidates |
| BlueNoise.Unblocked | Assets/Scenes/VoronoiScene/BlueNoiseSprite.cs:34-45 | an object is placed at v exactly when v is a kept point and not a path cell |
| BlueNoise.UnblockedEmbeds | Assets/Scenes/VoronoiScene/BlueNoiseSprite.cs:36-45 | objects are placed in the order their points were kept |
| BlueNoise.BlueNoiseSprite.constructor | Assets/Scenes/VoronoiScene/BlueNoiseSprite.cs:9-13 | the inspector defaults |
| BlueNoise.BlueNoiseSprite.IsTooClose | Assets/Scenes/VoronoiScene/BlueNoiseSprite.cs:22-28 | the flag is set iff some kept point is closer than `distance` |
| BlueNoise.BlueNoiseSprite.GenerateBluePoints | Assets/Scenes/VoronoiScene/BlueNoiseSprite.cs:15-46 | the kept points are the greedy selection, number at most pointAmount, are drawn from the candidates (so lie in [1, dimension)² when the candidates do), and are pairwise ≥ `distance` apart; the placed objects are those not on a path |
| BlueNoise.BlueNoiseSprite.PlaceObjects | Assets/Scenes/VoronoiScene/BlueNoiseSprite.cs:36-45 | the filter loop places exactly the unblocked points, in order |

## Left out

- Unity engine surfaces are not modelled. This covers `Terrain`/`TerrainData` (resolution and size setters, `SetHeights`, `SetAlphamaps`, `GetAlphamaps`, terrain layers and textures), `Texture2D`, `Sprite`, `SpriteRenderer`, `Instantiate`/`Destroy`, `FindObjectOfType`, `GameObject.Find` and `RenderSettings.fog`. The model returns the grids, splat arrays and point lists those calls receive. `GetVoronoi` and `StartGenerating` assume the splat map is `terrainDimension` × `terrainDimension`; the source reads its size back from `alphamapResolution`, which the engine clamps, so for very small or very large dimensions the real splat map differs in size.
- Input polling is not modelled. Key presses are a `Keys` parameter of each frame. `Input.GetKeyDown(Plus)` and `KeypadPlus` (likewise Minus) are merged into one key.
- `Random.Range` results are parameters, not draws from a generator:
  - the gradient generator's seeds and offsets, required in their stated ranges;
  - the Perlin offsets, required in [-99999, 99999];
  - the Voronoi centroids and the diagram colours, with no range required;
  - the blue-noise candidates. `InSquare` states their range [1, dimension)² as a hypothesis of the kept points' range, and `Random.Range(1, dimension)` for a dimension of at most 1 is not modelled.
- OpenSimplex2 is not part of this model. `Mathf.PerlinNoise` and `Vector2.Distance` are abstract function values too. Their output ranges are hypotheses of the lemmas that need them, not facts. Distances are assumed non-negative and below `float.MaxValue` (`ValidMetric`), and the `sqrt` inside `Vector2.Distance` is not modelled.
- IEEE floating point is not modelled. Floats and doubles are exact reals, including:
  - the `(float)` casts in the kernel;
  - the division by `NORMALIZER_3D`;
  - the literals 1.1f, 0.9f, 0.8f, 0.2f and 0.01f, taken at their decimal values;
  - the conversion of the integer draws to `float` offsets.

  The kernel's approximate [-1, 1] output range is therefore not proved.
- `System.Math.Round` is modelled exactly on reals (half to even), not on binary doubles.
- The two noise generators' `GenerateHeights` and `GenerateTerrain` require a non-negative dimension, where the source's `new float[d, d]` throws otherwise. When the dimension is above 2 and voxel rounding is on, they also require `voxelDecimal` in 0..15 (`HeightsDefined`), where the source's `Math.Round` throws otherwise. `Update` requires the same only on frames that regenerate; other frames only change settings and never throw. The thrown exceptions are not modelled.
- `DomainRotatedPerlin.CastToInt32` and `DomainRotatedPerlin.FastFloor`: an out-of-range `(int)` conversion is modelled as `int.MinValue`, the x86/x64 result. Newer .NET runtimes saturate instead, and IL2CPP leaves it undefined. The contracts speak only of arguments in the `int` range.
- `VoronoiDiagram.VoronoiDiagram.GetDiagram`: pixel colours are stated only for square images. On an image taller than it is wide, rows overlap in the pixel array, so some pixels are written twice and others never. The image dimensions are also required to be non-negative and at most 46340. With exactly one negative dimension the source's allocation throws; with both negative it returns an unpainted array, which is not modelled. The cap at 46340 ensures that `imageDim.x * imageDim.y` fits in an `int`.
- `VoronoiTerrain.VoronoiTerrainGenerator.GetVoronoi` and `VoronoiDiagram.VoronoiDiagram.GetDiagram`: require a non-negative `regionAmount` (and `GetVoronoi` a non-negative `terrainDimension`). With `regionAmount` equal to -1 the source throws at the sentinel store `centroids[regionAmount]`; below that, and for a negative dimension, it throws on allocation. The thrown exceptions are not modelled.
- `BlueNoise.BlueNoiseSprite.GenerateBluePoints`: the tree choice (`trees[Random.Range(...)]`), `showCylinders`, the debug cylinders and `ClearTerrain` are left out. The placed objects are modelled only by their positions.
- VoronoiTerrainGenerator's `Update` is not modelled. Its keys H, B, F and P toggle a sprite, `blueNoise`, `fog` and `perlinNoise`, and R, B and P call `startGenerating`, which is modelled.
- `GetImageFromColorArray`, `CreateTextureSprite` and the `Start` methods are not modelled. `Start` calls `GenerateTerrain`, `startGenerating` or `CreateTextureSprite`, each of which is modelled or listed above.
- The `default:` branch of `GetNoise`'s switch is not modelled. It only catches values outside the three-member enum, which the `NoiseType` datatype cannot hold.
- Both noise generators' serialized fields are one `config` datatype field of the class, updated as a whole.
- The cross-script wiring (`clearTerrain()`/`generateBluePoints()` called from VoronoiTerrainGenerator) is left out. Only the `pathPositions` list it passes is modelled.
- CameraController.cs, ExtendedFlycam.cs, TreePlacement.cs and GUIScript.cs are not part of this model.
