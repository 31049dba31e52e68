/**
 * The nearest-centroid search shared by VoronoiTerrainGenerator.getVoronoiValue
 * and VoronoiDiagram.GetClosestCentroidIndex, and the centroid array both
 * scripts build.
 *
 * Both scripts start `smallestDst` and `secondSmallestDst` at float.MaxValue
 * and `index` at 0, and walk the centroids in order; on a distance strictly
 * below the running minimum, the old minimum becomes `secondSmallestDst`, the
 * distance becomes `smallestDst` and its position becomes `index`.  `Scan`
 * is that walk over the sequence of distances.
 */
module CentroidSearch {
  import opened UnityMath

  /** Vector2.Distance between two integer points, left abstract. */
  type Metric = (Vec2Int, Vec2Int) -> real

  /** A distance is never negative and never reaches float.MaxValue on the grid. */
  ghost predicate ValidMetric(dist: Metric)
  {
    forall a, b :: 0.0 <= dist(a, b) < FLOAT_MAX
  }

  /** The three loop variables after the walk. */
  datatype Search = Search(smallest: real, second: real, index: nat)

  /** The running-minimum walk over the distances ds, in order. */
  function Scan(ds: seq<real>): (s: Search)
    ensures |ds| > 0 ==> s.index < |ds|
    ensures s.smallest <= s.second <= FLOAT_MAX
    ensures s.smallest == FLOAT_MAX ==> s.second == FLOAT_MAX && s.index == 0
    decreases |ds|
  {
    if ds == [] then Search(FLOAT_MAX, FLOAT_MAX, 0)
    else
      var s := Scan(ds[..|ds| - 1]);
      var d := ds[|ds| - 1];
      if d < s.smallest then Search(d, s.smallest, |ds| - 1) else s
  }

  /**
   * What the walk keeps: smallestDst is at most every distance seen; below
   * float.MaxValue it is the distance at `index`, strictly below
   * secondSmallestDst and strictly below every distance before `index`.
   */
  lemma {:induction false} ScanInvariant(ds: seq<real>)
    ensures var s := Scan(ds);
            (forall i :: 0 <= i < |ds| ==> s.smallest <= ds[i]) &&
            (s.smallest < FLOAT_MAX ==> s.index < |ds| && ds[s.index] == s.smallest && s.smallest < s.second) &&
            (s.smallest < FLOAT_MAX ==> forall i :: 0 <= i < s.index ==> ds[i] > s.smallest)
    decreases |ds|
  {
    if ds != [] {
      var prefix := ds[..|ds| - 1];
      ScanInvariant(prefix);
      assert forall i :: 0 <= i < |prefix| ==> prefix[i] == ds[i];
    }
  }

  /** One more step of the walk: the loop body applied to distance d. */
  lemma {:induction false} ScanStep(ds: seq<real>, i: nat)
    requires i < |ds|
    ensures var s := Scan(ds[..i]);
            Scan(ds[..i + 1]) == if ds[i] < s.smallest then Search(ds[i], s.smallest, i) else s
  {
    assert ds[..i + 1][..i] == ds[..i];
  }

  /**
   * The centroid reached is a nearest one, and the first of the nearest ones
   * (the comparison is strict), whenever there is at least one centroid.
   */
  lemma {:induction false} ScanFindsFirstNearest(ds: seq<real>)
    requires |ds| > 0 && forall i :: 0 <= i < |ds| ==> 0.0 <= ds[i] < FLOAT_MAX
    ensures var s := Scan(ds);
            s.index < |ds| && s.smallest == ds[s.index] &&
            (forall i :: 0 <= i < |ds| ==> ds[s.index] <= ds[i]) &&
            (forall i :: 0 <= i < s.index ==> ds[s.index] < ds[i])
  {
    ScanInvariant(ds);
    assert Scan(ds).smallest <= ds[0] < FLOAT_MAX;
  }

  /** With non-negative distances the ratio smallestDst / secondSmallestDst is defined. */
  lemma {:induction false} ScanSecondPositive(ds: seq<real>)
    requires forall i :: 0 <= i < |ds| ==> 0.0 <= ds[i]
    ensures Scan(ds).second > 0.0
  {
    var s := Scan(ds);
    ScanInvariant(ds);
    if s.smallest < FLOAT_MAX {
      assert 0.0 <= ds[s.index];
    }
  }

  /**
   * `secondSmallestDst` is the running minimum just before the final
   * minimum was found, i.e. the minimum over the centroids before `index`,
   * not the distance to the second-nearest centroid.
   */
  lemma {:induction false} SecondIsEarlierMinimum(ds: seq<real>)
    requires Scan(ds).smallest < FLOAT_MAX
    ensures Scan(ds).second == Scan(ds[..Scan(ds).index]).smallest
  {
    var n := |ds|;
    var prev := Scan(ds[..n - 1]);
    if ds[n - 1] < prev.smallest {
      assert Scan(ds).index == n - 1;
    } else {
      SecondIsEarlierMinimum(ds[..n - 1]);
      assert ds[..n - 1][..prev.index] == ds[..prev.index];
    }
  }

  /**
   * A nearest centroid that comes first leaves secondSmallestDst at
   * float.MaxValue even when a second, farther centroid exists.
   */
  lemma SecondMissesLaterCentroid()
    ensures Scan([1.0, 3.0]) == Search(1.0, FLOAT_MAX, 0)
  {
    assert [1.0, 3.0][..1] == [1.0];
    assert [1.0][..0] == [];
  }

  /** With only the sentinel centroid, secondSmallestDst stays float.MaxValue. */
  lemma OnlySentinel(d: real)
    ensures Scan([d]).second == FLOAT_MAX && Scan([d]).index == 0
  {
    assert [d][..0] == [];
  }

  /** The distances from p to each centroid, in order. */
  function Distances(dist: Metric, p: Vec2Int, centroids: seq<Vec2Int>): seq<real>
  {
    seq(|centroids|, i requires 0 <= i < |centroids| => dist(p, centroids[i]))
  }

  /** The index of the centroid nearest to p that the walk settles on. */
  function Closest(dist: Metric, centroids: seq<Vec2Int>, p: Vec2Int): (k: nat)
    ensures |centroids| > 0 ==> k < |centroids|
  {
    Scan(Distances(dist, p, centroids)).index
  }

  lemma DistancesValid(dist: Metric, p: Vec2Int, centroids: seq<Vec2Int>)
    requires ValidMetric(dist)
    ensures var ds := Distances(dist, p, centroids);
            |ds| == |centroids| && forall i :: 0 <= i < |ds| ==> 0.0 <= ds[i] < FLOAT_MAX
  {
  }

  /** The sentinel centroid at index regionAmount. */
  const SENTINEL: Vec2Int := Vec2Int(0, 0)

  /**
   * The centroid array: the drawn centroids, then the sentinel (0, 0) at
   * index regionAmount.
   */
  function Centroids(draws: seq<Vec2Int>): seq<Vec2Int>
  {
    draws + [SENTINEL]
  }

  predicate InBox(p: Vec2Int, width: int, height: int)
  {
    0 <= p.x < width && 0 <= p.y < height
  }

  /**
   * regionAmount + 1 centroids, the last one the sentinel, every other one a
   * draw inside the box.
   */
  lemma CentroidsLayout(draws: seq<Vec2Int>, width: int, height: int)
    requires forall i :: 0 <= i < |draws| ==> InBox(draws[i], width, height)
    ensures var cs := Centroids(draws);
            |cs| == |draws| + 1 && cs[|draws|] == SENTINEL &&
            forall i :: 0 <= i < |draws| ==> InBox(cs[i], width, height)
  {
  }

  /**
   * The centroid array as both scripts fill it: `regionAmount + 1` slots,
   * the sentinel stored at index regionAmount, then the drawn centroids
   * stored at 0 .. regionAmount - 1.
   */
  method NewCentroids(centroidDraws: seq<Vec2Int>) returns (centroids: array<Vec2Int>)
    ensures centroids[..] == Centroids(centroidDraws)
  {
    var regionAmount := |centroidDraws|;
    centroids := new Vec2Int[regionAmount + 1](_ => SENTINEL);
    centroids[regionAmount] := SENTINEL;
    for i := 0 to regionAmount
      invariant centroids[..i] == centroidDraws[..i]
      invariant forall j :: i <= j < centroids.Length ==> centroids[j] == SENTINEL
    {
      centroids[i] := centroidDraws[i];
    }
  }
}
