/**
 * The order in which getVoronoi records cells in pathPositions: rows x = 0,
 * 1, ... in turn, and within a row columns y = 0, 1, ..., each recorded cell
 * stored with its coordinates swapped as (y, x).
 */
module PathRecord {
  import opened UnityMath

  /** The cell test getVoronoi records a cell under. */
  type CellTest = (int, int) -> bool

  /**
   * The (y, x) entries getVoronoi appends for cells (x, 0) .. (x, n - 1):
   * (y, x) is there exactly when cell (x, y) passes the test.
   */
  function RowPaths(t: CellTest, x: int, n: nat): (r: seq<Vec2Int>)
    ensures forall p :: p in r <==> p.y == x && 0 <= p.x < n && t(x, p.x)
  {
    if n == 0 then []
    else RowPaths(t, x, n - 1) + (if t(x, n - 1) then [Vec2Int(n - 1, x)] else [])
  }

  /**
   * The entries getVoronoi appends for rows 0 .. rows - 1 of a dim-wide
   * grid, in scan order: (y, x) is there exactly when cell (x, y) of the
   * grid passes the test, so the coordinates are recorded swapped.
   */
  function GridPaths(t: CellTest, rows: nat, dim: nat): (r: seq<Vec2Int>)
    ensures forall p :: p in r <==> 0 <= p.y < rows && 0 <= p.x < dim && t(p.y, p.x)
  {
    if rows == 0 then [] else GridPaths(t, rows - 1, dim) + RowPaths(t, rows - 1, dim)
  }

  /** Appending the entries of cell (x, y) to a list holding those of cells (x, 0) .. (x, y - 1). */
  lemma RowPathsExtend(t: CellTest, x: int, y: nat, start: seq<Vec2Int>, before: seq<Vec2Int>, after: seq<Vec2Int>)
    requires before == start + RowPaths(t, x, y)
    requires after == before + if t(x, y) then [Vec2Int(y, x)] else []
    ensures after == start + RowPaths(t, x, y + 1)
  {
    assert RowPaths(t, x, y + 1) == RowPaths(t, x, y) + if t(x, y) then [Vec2Int(y, x)] else [];
  }

  /** Appending the entries of row x to a list holding those of rows 0 .. x - 1. */
  lemma GridPathsExtend(t: CellTest, x: nat, dim: nat, start: seq<Vec2Int>, before: seq<Vec2Int>, after: seq<Vec2Int>)
    requires before == start + GridPaths(t, x, dim)
    requires after == before + RowPaths(t, x, dim)
    ensures after == start + GridPaths(t, x + 1, dim)
  {
    assert GridPaths(t, x + 1, dim) == GridPaths(t, x, dim) + RowPaths(t, x, dim);
  }

  /** Each row contributes its cells in increasing column order, so no entry repeats. */
  lemma {:induction false} RowPathsSorted(t: CellTest, x: int, n: nat)
    ensures forall i, j :: 0 <= i < j < |RowPaths(t, x, n)| ==> RowPaths(t, x, n)[i].x < RowPaths(t, x, n)[j].x
  {
    if n > 0 {
      RowPathsSorted(t, x, n - 1);
      var prefix := RowPaths(t, x, n - 1);
      forall i | 0 <= i < |prefix|
        ensures prefix[i].x < n - 1
      {
        assert prefix[i] in prefix;
      }
    }
  }

}

/**
 * VoronoiTerrainGenerator: a height grid and a two-channel splat map from
 * regionAmount random centroids plus the sentinel (0, 0).  A cell is a path
 * when its nearest distance, divided by the running minimum it replaced,
 * exceeds pathThreshold; a path cell gets height 0 and splat channel 1, a
 * region cell height voronoiScale and splat channel 0; an optional clamped
 * Perlin overlay is added to the height afterwards.
 */
module VoronoiTerrain {
  import opened MachineInt
  import opened UnityMath
  import opened CentroidSearch
  import opened PathRecord

  /** What getVoronoiValue reads: the distance, the two settings and the centroids. */
  datatype Classifier = Classifier(dist: Metric, pathThreshold: real, voronoiScale: real, centroids: seq<Vec2Int>)

  /** The walk of getVoronoiValue for cell (x, y). */
  function CellSearch(c: Classifier, x: int, y: int): Search
  {
    Scan(Distances(c.dist, Vec2Int(x, y), c.centroids))
  }

  /**
   * smallestDst / secondSmallestDst for cell (x, y).  It lies in [0, 1],
   * and below 1 as soon as there is a centroid.
   */
  function Ratio(c: Classifier, x: int, y: int): (r: real)
    requires ValidMetric(c.dist)
    ensures 0.0 <= r <= 1.0
    ensures |c.centroids| > 0 ==> r < 1.0
  {
    var ds := Distances(c.dist, Vec2Int(x, y), c.centroids);
    DistancesValid(c.dist, Vec2Int(x, y), c.centroids);
    ScanSecondPositive(ds);
    ScanInvariant(ds);
    var s := Scan(ds);
    assert |c.centroids| > 0 ==> s.smallest <= ds[0] < FLOAT_MAX;
    RatioBounds(s.smallest, s.second);
    s.smallest / s.second
  }

  lemma RatioBounds(a: real, b: real)
    requires 0.0 <= a <= b && b > 0.0
    ensures 0.0 <= a / b <= 1.0
    ensures a < b ==> a / b < 1.0
  {
  }

  /** getVoronoiValue: 0 on a path, voronoiScale in a region. */
  function CellValue(c: Classifier, x: int, y: int): (v: real)
    requires ValidMetric(c.dist)
    ensures v == 0.0 || v == c.voronoiScale
  {
    if Ratio(c, x, y) > c.pathThreshold then 0.0 else c.voronoiScale
  }

  /** getVoronoi's test: the value differs from voronoiScale. */
  predicate IsPath(c: Classifier, x: int, y: int)
    requires ValidMetric(c.dist)
  {
    CellValue(c, x, y) != c.voronoiScale
  }

  /**
   * A cell is a path exactly when the ratio exceeds the threshold and
   * voronoiScale is not 0 (with a scale of 0 both outcomes are 0).
   */
  lemma PathIffAboveThreshold(c: Classifier, x: int, y: int)
    requires ValidMetric(c.dist)
    ensures IsPath(c, x, y) <==> c.voronoiScale != 0.0 && Ratio(c, x, y) > c.pathThreshold
    ensures CellValue(c, x, y) == 0.0 <==> c.voronoiScale == 0.0 || Ratio(c, x, y) > c.pathThreshold
  {
  }

  /** With a threshold of 1 or more no cell is a path. */
  lemma NoPathAtThresholdOne(c: Classifier, x: int, y: int)
    requires ValidMetric(c.dist) && c.pathThreshold >= 1.0
    ensures !IsPath(c, x, y)
  {
  }

  /**
   * The cell under a centroid, at distance 0 from it, has ratio 0 and so is
   * never a path while the threshold is not negative.
   */
  lemma {:induction false} CentroidCellIsRegion(c: Classifier, k: nat)
    requires ValidMetric(c.dist) && k < |c.centroids| && c.pathThreshold >= 0.0
    requires c.dist(c.centroids[k], c.centroids[k]) == 0.0
    ensures Ratio(c, c.centroids[k].x, c.centroids[k].y) == 0.0
    ensures !IsPath(c, c.centroids[k].x, c.centroids[k].y)
  {
    var p := Vec2Int(c.centroids[k].x, c.centroids[k].y);
    var ds := Distances(c.dist, p, c.centroids);
    assert ds[k] == 0.0;
    DistancesValid(c.dist, p, c.centroids);
    ScanInvariant(ds);
    assert Scan(ds).smallest == 0.0;
  }

  /**
   * With only the sentinel centroid the ratio is dist(cell, (0, 0)) /
   * float.MaxValue, since secondSmallestDst never leaves float.MaxValue.
   */
  lemma {:induction false} SentinelOnlyRatio(c: Classifier, x: int, y: int)
    requires ValidMetric(c.dist) && c.centroids == [SENTINEL]
    ensures CellSearch(c, x, y).second == FLOAT_MAX
    ensures Ratio(c, x, y) == c.dist(Vec2Int(x, y), SENTINEL) / FLOAT_MAX
  {
    var ds := Distances(c.dist, Vec2Int(x, y), c.centroids);
    assert ds == [c.dist(Vec2Int(x, y), SENTINEL)];
    OnlySentinel(ds[0]);
    assert ds[..0] == [];
  }

  /** The splat channel getVoronoi selects: 1 on a path, 0 in a region. */
  function PathChannel(c: Classifier, x: int, y: int): nat
    requires ValidMetric(c.dist)
  {
    if IsPath(c, x, y) then 1 else 0
  }

  /** Channel i of a cell after SetSplatValue(x, y, splat). */
  function OneHot(splat: int, i: int): real
  {
    if i == splat then 1.0 else 0.0
  }

  /** getVoronoi's path test as a cell test. */
  ghost function PathTest(c: Classifier): (t: CellTest)
    requires ValidMetric(c.dist)
    ensures forall x, y :: t(x, y) == IsPath(c, x, y)
  {
    (x, y) => IsPath(c, x, y)
  }

  /** The settings of the Perlin overlay. */
  datatype Overlay = Overlay(enabled: bool, noise: Noise2, scale: real, intensity: real)

  /**
   * getPerlinValue: the noise at the scaled point times intensity, clamped
   * to [0, 0.75] whatever the noise returns.
   */
  function PerlinValue(o: Overlay, x: real, y: real): (r: real)
    ensures 0.0 <= r <= 0.75
    ensures 0.0 <= o.noise(x * o.scale, y * o.scale) * o.intensity <= 0.75 ==>
              r == o.noise(x * o.scale, y * o.scale) * o.intensity
  {
    Clamp(o.noise(x * o.scale, y * o.scale) * o.intensity, 0.0, 0.75)
  }

  /** posValues[x, y]: the Voronoi value, with the overlay added after classification. */
  function CellHeight(c: Classifier, o: Overlay, x: int, y: int): real
    requires ValidMetric(c.dist)
  {
    CellValue(c, x, y) + if o.enabled then PerlinValue(o, x as real, y as real) else 0.0
  }

  /**
   * Every height lies in [0, voronoiScale + 0.75]; a path cell is at most
   * 0.75 high; without the overlay the height is the Voronoi value.
   */
  lemma HeightBounds(c: Classifier, o: Overlay, x: int, y: int)
    requires ValidMetric(c.dist) && c.voronoiScale >= 0.0
    ensures 0.0 <= CellHeight(c, o, x, y) <= c.voronoiScale + 0.75
    ensures !o.enabled ==> CellHeight(c, o, x, y) == CellValue(c, x, y)
    ensures IsPath(c, x, y) ==> CellHeight(c, o, x, y) <= 0.75
  {
  }

  /**
   * Cell (a, b) of a getVoronoi pass is finished: it holds its height and
   * its splat cell is one-hot on its channel.
   */
  ghost predicate CellDone(c: Classifier, o: Overlay, posValues: array2<real>, splat: array3<real>, a: int, b: int)
    reads posValues, splat
  {
    ValidMetric(c.dist) &&
    0 <= a < posValues.Length0 && 0 <= b < posValues.Length1 &&
    a < splat.Length0 && b < splat.Length1 &&
    posValues[a, b] == CellHeight(c, o, a, b) &&
    forall i :: 0 <= i < splat.Length2 ==> splat[a, b, i] == OneHot(PathChannel(c, a, b), i)
  }

  /** Every cell before (x, y) in scan order, row by row, is finished. */
  ghost predicate DoneBefore(c: Classifier, o: Overlay, posValues: array2<real>, splat: array3<real>, x: int, y: int)
    reads posValues, splat
  {
    forall a, b :: 0 <= a < posValues.Length0 && 0 <= b < posValues.Length1 && (a < x || (a == x && b < y)) ==>
      CellDone(c, o, posValues, splat, a, b)
  }

  /** Finishing row x up to its last column finishes everything before row x + 1. */
  lemma NextRowDone(c: Classifier, o: Overlay, posValues: array2<real>, splat: array3<real>, x: int)
    requires DoneBefore(c, o, posValues, splat, x, posValues.Length1)
    ensures DoneBefore(c, o, posValues, splat, x + 1, 0)
  {
  }

  /** A grid whose every cell is finished holds the heights and the one-hot splat cells. */
  lemma AllCellsDone(c: Classifier, o: Overlay, posValues: array2<real>, splat: array3<real>)
    requires ValidMetric(c.dist)
    requires posValues.Length0 == splat.Length0 && posValues.Length1 == splat.Length1
    requires DoneBefore(c, o, posValues, splat, posValues.Length0, 0)
    ensures forall a, b :: 0 <= a < posValues.Length0 && 0 <= b < posValues.Length1 ==> posValues[a, b] == CellHeight(c, o, a, b)
    ensures forall a, b, i :: 0 <= a < posValues.Length0 && 0 <= b < posValues.Length1 && 0 <= i < splat.Length2 ==>
              splat[a, b, i] == OneHot(PathChannel(c, a, b), i)
  {
    forall a, b | 0 <= a < posValues.Length0 && 0 <= b < posValues.Length1
      ensures posValues[a, b] == CellHeight(c, o, a, b)
      ensures forall i :: 0 <= i < splat.Length2 ==> splat[a, b, i] == OneHot(PathChannel(c, a, b), i)
    {
      assert CellDone(c, o, posValues, splat, a, b);
    }
  }

  class VoronoiTerrainGenerator {
    var height: real
    var terrainDimension: Int32
    var pathThreshold: real
    var regionAmount: Int32
    var voronoiScale: real
    var perlinNoise: bool
    var blueNoise: bool
    var intensity: real
    var perlinScale: real
    var splatMapData: array3<real>
    var pathPositions: seq<Vec2Int>
    var fog: bool
    /** Vector2.Distance */
    const dist: Metric
    /** Mathf.PerlinNoise */
    const perlin: Noise2

    /** The inspector defaults. */
    constructor (dist: Metric, perlin: Noise2)
      ensures height == 1.0 && terrainDimension == 256
      ensures pathThreshold == 0.8 && regionAmount == 30 && voronoiScale == 0.2
      ensures !perlinNoise && !blueNoise && intensity == 1.0 && perlinScale == 1.0
      ensures pathPositions == [] && !fog
      ensures this.dist == dist && this.perlin == perlin
    {
      height := 1.0;
      terrainDimension := 256;
      pathThreshold := 0.8;
      regionAmount := 30;
      voronoiScale := 0.2;
      perlinNoise := false;
      blueNoise := false;
      intensity := 1.0;
      perlinScale := 1.0;
      splatMapData := new real[0, 0, 0];
      pathPositions := [];
      fog := false;
      this.dist := dist;
      this.perlin := perlin;
    }

    function Classify(centroids: seq<Vec2Int>): Classifier
      reads this`pathThreshold, this`voronoiScale
    {
      Classifier(dist, pathThreshold, voronoiScale, centroids)
    }

    /** The overlay settings getPerlinValue and getVoronoi read. */
    function OverlaySettings(): Overlay
      reads this`perlinNoise, this`perlinScale, this`intensity
    {
      Overlay(perlinNoise, perlin, perlinScale, intensity)
    }

    /**
     * SetSplatValue: channel `splat` of cell (x, y) becomes 1, every other
     * channel of that cell 0; no other cell changes.
     */
    method SetSplatValue(x: int, y: int, splat: int)
      requires 0 <= x < splatMapData.Length0 && 0 <= y < splatMapData.Length1
      modifies splatMapData
      ensures forall a, b, i :: 0 <= a < splatMapData.Length0 && 0 <= b < splatMapData.Length1 && 0 <= i < splatMapData.Length2 ==>
                splatMapData[a, b, i] == if a == x && b == y then OneHot(splat, i) else old(splatMapData[a, b, i])
    {
      for i := 0 to splatMapData.Length2
        invariant forall a, b, k :: 0 <= a < splatMapData.Length0 && 0 <= b < splatMapData.Length1 && 0 <= k < splatMapData.Length2 ==>
                    splatMapData[a, b, k] == if a == x && b == y && k < i then OneHot(splat, k) else old(splatMapData[a, b, k])
      {
        if i == splat {
          splatMapData[x, y, i] := 1.0;
        } else {
          splatMapData[x, y, i] := 0.0;
        }
      }
    }

    /** getVoronoiValue: the running-minimum walk, then the ratio test. */
    method GetVoronoiValue(x: int, y: int, centroids: array<Vec2Int>) returns (value: real)
      requires ValidMetric(dist)
      ensures value == CellValue(Classify(centroids[..]), x, y)
    {
      ghost var ds := Distances(dist, Vec2Int(x, y), centroids[..]);
      var smallestDst := FLOAT_MAX;
      var secondSmallestDst := FLOAT_MAX;
      var index := 0;
      assert ds[..0] == [];
      for i := 0 to centroids.Length
        invariant Search(smallestDst, secondSmallestDst, index) == Scan(ds[..i])
      {
        ScanStep(ds, i);
        if dist(Vec2Int(x, y), centroids[i]) < smallestDst {
          secondSmallestDst := smallestDst;
          smallestDst := dist(Vec2Int(x, y), centroids[i]);
          index := i;
        }
      }
      assert ds[..centroids.Length] == ds;
      DistancesValid(dist, Vec2Int(x, y), centroids[..]);
      ScanSecondPositive(ds);
      value := if smallestDst / secondSmallestDst > pathThreshold then 0.0 else voronoiScale;
    }

    /**
     * getVoronoi: every cell of the dim-by-dim grid, border included, gets
     * its height; its splat cell is one-hot on its channel; the swapped
     * coordinates of the path cells are appended to pathPositions in scan
     * order.
     */
    method GetVoronoi(centroidDraws: seq<Vec2Int>) returns (posValues: array2<real>)
      requires ValidMetric(dist)
      requires 0 <= regionAmount && |centroidDraws| == regionAmount as int && 0 <= terrainDimension
      requires splatMapData.Length0 == terrainDimension as int && splatMapData.Length1 == terrainDimension as int
      modifies this`pathPositions, splatMapData
      ensures fresh(posValues)
      ensures posValues.Length0 == terrainDimension as int && posValues.Length1 == terrainDimension as int
      ensures forall x, y :: 0 <= x < terrainDimension && 0 <= y < terrainDimension ==>
                posValues[x, y] == CellHeight(Classify(Centroids(centroidDraws)), OverlaySettings(), x, y)
      ensures forall x, y, i :: 0 <= x < terrainDimension && 0 <= y < terrainDimension && 0 <= i < splatMapData.Length2 ==>
                splatMapData[x, y, i] == OneHot(PathChannel(Classify(Centroids(centroidDraws)), x, y), i)
      ensures pathPositions == old(pathPositions) + GridPaths(PathTest(Classify(Centroids(centroidDraws))), terrainDimension as nat, terrainDimension as nat)
    {
      var centroids := NewCentroids(centroidDraws);
      ghost var c, o := Classify(Centroids(centroidDraws)), OverlaySettings();
      var dim := terrainDimension as int;
      posValues := new real[dim, dim];
      FillGrid(centroids, posValues, c, o, PathTest(c));
      assert c == Classify(Centroids(centroidDraws)) && o == OverlaySettings();
      AllCellsDone(c, o, posValues, splatMapData);
    }

    /**
     * What the cell loop of one getVoronoi pass works with: the classifier
     * of the centroid array and the current settings, the path test of that
     * classifier, and a height grid shaped like the splat map.
     */
    ghost predicate Ready(centroids: array<Vec2Int>, posValues: array2<real>, c: Classifier, o: Overlay, t: CellTest)
      reads this`pathThreshold, this`voronoiScale, this`perlinNoise, this`perlinScale, this`intensity, this`splatMapData, centroids
    {
      ValidMetric(dist) && c == Classify(centroids[..]) && o == OverlaySettings() &&
      (forall x, y {:trigger IsPath(c, x, y)} :: t(x, y) == IsPath(c, x, y)) &&
      posValues.Length0 == splatMapData.Length0 && posValues.Length1 == splatMapData.Length1
    }

    /** getVoronoi's loop over the rows x = 0 .. dim - 1. */
    method FillGrid(centroids: array<Vec2Int>, posValues: array2<real>, ghost c: Classifier, ghost o: Overlay, ghost t: CellTest)
      requires Ready(centroids, posValues, c, o, t)
      modifies this`pathPositions, splatMapData, posValues
      ensures DoneBefore(c, o, posValues, splatMapData, posValues.Length0, 0)
      ensures pathPositions == old(pathPositions) + GridPaths(t, posValues.Length0, posValues.Length1)
    {
      var dim := posValues.Length1;
      for x := 0 to posValues.Length0
        invariant DoneBefore(c, o, posValues, splatMapData, x, 0)
        invariant pathPositions == old(pathPositions) + GridPaths(t, x, dim)
      {
        ghost var before := pathPositions;
        FillRow(x, centroids, posValues, c, o, t);
        NextRowDone(c, o, posValues, splatMapData, x);
        GridPathsExtend(t, x, dim, old(pathPositions), before, pathPositions);
      }
    }

    /** One row of getVoronoi's cell loop: cells (x, 0) .. (x, dim - 1). */
    method FillRow(x: int, centroids: array<Vec2Int>, posValues: array2<real>, ghost c: Classifier, ghost o: Overlay, ghost t: CellTest)
      requires Ready(centroids, posValues, c, o, t) && 0 <= x < posValues.Length0
      requires DoneBefore(c, o, posValues, splatMapData, x, 0)
      modifies this`pathPositions, splatMapData, posValues
      ensures DoneBefore(c, o, posValues, splatMapData, x, posValues.Length1)
      ensures pathPositions == old(pathPositions) + RowPaths(t, x, posValues.Length1)
    {
      for y := 0 to posValues.Length1
        invariant DoneBefore(c, o, posValues, splatMapData, x, y)
        invariant pathPositions == old(pathPositions) + RowPaths(t, x, y)
      {
        ghost var before := pathPositions;
        FillCell(x, y, centroids, posValues, c, o, t);
        RowPathsExtend(t, x, y, old(pathPositions), before, pathPositions);
      }
    }

    /** The body of getVoronoi's cell loop for cell (x, y). */
    method FillCell(x: int, y: int, centroids: array<Vec2Int>, posValues: array2<real>, ghost c: Classifier, ghost o: Overlay, ghost t: CellTest)
      requires Ready(centroids, posValues, c, o, t) && 0 <= x < posValues.Length0 && 0 <= y < posValues.Length1
      requires DoneBefore(c, o, posValues, splatMapData, x, y)
      modifies this`pathPositions, splatMapData, posValues
      ensures DoneBefore(c, o, posValues, splatMapData, x, y + 1)
      ensures pathPositions == old(pathPositions) + if t(x, y) then [Vec2Int(y, x)] else []
    {
      var value := GetVoronoiValue(x, y, centroids);
      assert t(x, y) == IsPath(c, x, y);
      if value == voronoiScale {
        SetSplatValue(x, y, 0);
      } else {
        pathPositions := pathPositions + [Vec2Int(y, x)];
        SetSplatValue(x, y, 1);
      }
      if perlinNoise {
        value := value + PerlinValue(OverlaySettings(), x as real, y as real);
      }
      posValues[x, y] := value;
      assert CellDone(c, o, posValues, splatMapData, x, y);
      forall a, b | 0 <= a < posValues.Length0 && 0 <= b < posValues.Length1 && (a < x || (a == x && b < y))
        ensures CellDone(c, o, posValues, splatMapData, a, b)
      {
        assert old(CellDone(c, o, posValues, splatMapData, a, b));
      }
    }

    /**
     * startGenerating: pathPositions starts empty, the splat map is the
     * terrain's alphamap array, and getVoronoi fills both and returns the
     * heights.
     */
    method StartGenerating(centroidDraws: seq<Vec2Int>, alphamaps: array3<real>) returns (heights: array2<real>)
      requires ValidMetric(dist)
      requires 0 <= regionAmount && |centroidDraws| == regionAmount as int && 0 <= terrainDimension
      requires alphamaps.Length0 == terrainDimension as int && alphamaps.Length1 == terrainDimension as int
      modifies this`pathPositions, this`splatMapData, alphamaps
      ensures splatMapData == alphamaps && fresh(heights)
      ensures heights.Length0 == terrainDimension as int && heights.Length1 == terrainDimension as int
      ensures forall x, y :: 0 <= x < terrainDimension && 0 <= y < terrainDimension ==>
                heights[x, y] == CellHeight(Classify(Centroids(centroidDraws)), OverlaySettings(), x, y)
      ensures forall x, y, i :: 0 <= x < terrainDimension && 0 <= y < terrainDimension && 0 <= i < alphamaps.Length2 ==>
                alphamaps[x, y, i] == OneHot(PathChannel(Classify(Centroids(centroidDraws)), x, y), i)
      ensures pathPositions == GridPaths(PathTest(Classify(Centroids(centroidDraws))), terrainDimension as nat, terrainDimension as nat)
    {
      pathPositions := [];
      splatMapData := alphamaps;
      heights := GetVoronoi(centroidDraws);
    }
  }
}
