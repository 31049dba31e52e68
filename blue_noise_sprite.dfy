/**
 * BlueNoiseSprite.GenerateBluePoints: greedy rejection sampling of points
 * at least `distance` apart (a blue-noise pattern), then one object per
 * accepted point that is not on a Voronoi path.
 *
 * The Random.Range candidates arrive as a sequence; the path positions
 * are the list VoronoiTerrainGenerator fills; the objects placed are the
 * sequence of their positions.
 */
module BlueNoise {
  import opened UnityMath
  import opened CentroidSearch

  /** Some point of pts lies closer to p than distance. */
  predicate TooClose(dist: Metric, distance: real, pts: seq<Vec2Int>, p: Vec2Int)
  {
    exists k :: 0 <= k < |pts| && dist(pts[k], p) < distance
  }

  /**
   * The points the sampling loop keeps from the candidates c, in order: a
   * candidate is kept when no point kept before it is closer than distance.
   */
  function Accepted(dist: Metric, distance: real, c: seq<Vec2Int>): (a: seq<Vec2Int>)
    ensures |a| <= |c|
    ensures forall p :: p in a ==> p in c
  {
    if |c| == 0 then []
    else
      var prev := Accepted(dist, distance, c[..|c| - 1]);
      if TooClose(dist, distance, prev, c[|c| - 1]) then prev else prev + [c[|c| - 1]]
  }

  /** Every earlier point is at least distance from every later one. */
  predicate Spaced(dist: Metric, distance: real, a: seq<Vec2Int>)
  {
    forall i, j :: 0 <= i < j < |a| ==> dist(a[i], a[j]) >= distance
  }

  /** a is c with some elements left out, in c's order: a[k] is c[idx[k]], idx increasing. */
  predicate Embeds(a: seq<Vec2Int>, c: seq<Vec2Int>, idx: seq<int>)
  {
    |idx| == |a| &&
    (forall k :: 0 <= k < |idx| ==> 0 <= idx[k] < |c| && a[k] == c[idx[k]]) &&
    (forall k, l :: 0 <= k < l < |idx| ==> idx[k] < idx[l])
  }

  /**
   * A subsequence of all but the last element of c is one of c, and stays
   * one when that last element is added.
   */
  lemma EmbedsExtend(a: seq<Vec2Int>, c: seq<Vec2Int>, idx: seq<int>)
    requires |c| > 0 && Embeds(a, c[..|c| - 1], idx)
    ensures Embeds(a, c, idx)
    ensures Embeds(a + [c[|c| - 1]], c, idx + [|c| - 1])
  {
  }

  /** The kept points are pairwise at least distance apart. */
  lemma {:induction false} AcceptedSpaced(dist: Metric, distance: real, c: seq<Vec2Int>)
    ensures Spaced(dist, distance, Accepted(dist, distance, c))
  {
    if |c| > 0 {
      var prev := Accepted(dist, distance, c[..|c| - 1]);
      AcceptedSpaced(dist, distance, c[..|c| - 1]);
      var p := c[|c| - 1];
      if !TooClose(dist, distance, prev, p) {
        var a := prev + [p];
        forall i, j | 0 <= i < j < |a|
          ensures dist(a[i], a[j]) >= distance
        {
          if j == |prev| {
            assert a[i] == prev[i];
          }
        }
      }
    }
  }

  /** Keeping is decided once and for all: the points kept from a prefix of the candidates begin the points kept from all of them. */
  lemma {:induction false} AcceptedPrefix(dist: Metric, distance: real, c: seq<Vec2Int>, i: nat)
    requires i <= |c|
    ensures Accepted(dist, distance, c[..i]) <= Accepted(dist, distance, c)
    decreases |c| - i
  {
    if i < |c| {
      AcceptedPrefix(dist, distance, c[..|c| - 1], i);
      assert c[..|c| - 1][..i] == c[..i];
    } else {
      assert c[..i] == c;
    }
  }

  /** The first candidate is always kept, and kept first. */
  lemma FirstAccepted(dist: Metric, distance: real, c: seq<Vec2Int>)
    requires |c| > 0
    ensures |Accepted(dist, distance, c)| > 0 && Accepted(dist, distance, c)[0] == c[0]
  {
    assert c[..1][..0] == [];
    AcceptedPrefix(dist, distance, c, 1);
  }

  /**
   * No candidate is rejected without reason: each candidate is either kept
   * or closer than distance to some kept point.
   */
  lemma AcceptedMaximal(dist: Metric, distance: real, c: seq<Vec2Int>, i: nat)
    requires i < |c|
    ensures c[i] in Accepted(dist, distance, c) || TooClose(dist, distance, Accepted(dist, distance, c), c[i])
  {
    var a := Accepted(dist, distance, c);
    var before := Accepted(dist, distance, c[..i]);
    assert c[..i + 1][..i] == c[..i];
    AcceptedPrefix(dist, distance, c, i + 1);
    var upTo := Accepted(dist, distance, c[..i + 1]);
    if TooClose(dist, distance, before, c[i]) {
      AcceptedPrefix(dist, distance, c, i);
      var k :| 0 <= k < |before| && dist(before[k], c[i]) < distance;
      assert a[k] == before[k];
    } else {
      assert upTo[|before|] == c[i];
      assert a[|before|] == c[i];
    }
  }

  /** The kept points are a subsequence of the candidates, in the order drawn. */
  lemma {:induction false} AcceptedEmbeds(dist: Metric, distance: real, c: seq<Vec2Int>) returns (idx: seq<int>)
    ensures Embeds(Accepted(dist, distance, c), c, idx)
  {
    if |c| == 0 {
      idx := [];
    } else {
      var prevIdx := AcceptedEmbeds(dist, distance, c[..|c| - 1]);
      var prev := Accepted(dist, distance, c[..|c| - 1]);
      EmbedsExtend(prev, c, prevIdx);
      if TooClose(dist, distance, prev, c[|c| - 1]) {
        idx := prevIdx;
      } else {
        idx := prevIdx + [|c| - 1];
      }
    }
  }

  /** The kept points that are not path cells, in the order kept. */
  function Unblocked(points: seq<Vec2Int>, path: seq<Vec2Int>): (r: seq<Vec2Int>)
    ensures |r| <= |points|
    ensures forall v :: v in r <==> v in points && v !in path
  {
    if |points| == 0 then []
    else
      var v := points[|points| - 1];
      assert points == points[..|points| - 1] + [v];
      var prev := Unblocked(points[..|points| - 1], path);
      if v in path then prev else prev + [v]
  }

  /** The objects are placed in the order their points were kept. */
  lemma {:induction false} UnblockedEmbeds(points: seq<Vec2Int>, path: seq<Vec2Int>) returns (idx: seq<int>)
    ensures Embeds(Unblocked(points, path), points, idx)
  {
    if |points| == 0 {
      idx := [];
    } else {
      var prevIdx := UnblockedEmbeds(points[..|points| - 1], path);
      EmbedsExtend(Unblocked(points[..|points| - 1], path), points, prevIdx);
      if points[|points| - 1] in path {
        idx := prevIdx;
      } else {
        idx := prevIdx + [|points| - 1];
      }
    }
  }

  /** How many candidates the sampling loop draws: pointAmount, or none when it is negative. */
  function DrawCount(pointAmount: int): nat
  {
    if pointAmount < 0 then 0 else pointAmount
  }

  /** Random.Range(1, dimension) on both axes. */
  predicate InSquare(p: Vec2Int, dimension: int)
  {
    1 <= p.x < dimension && 1 <= p.y < dimension
  }

  class BlueNoiseSprite {
    var pointAmount: int
    var distance: real
    var dimension: int
    /** Vector2Int.Distance. */
    const dist: Metric

    /** The inspector defaults. */
    constructor (dist: Metric)
      ensures pointAmount == 100 && distance == 5.0 && dimension == 256 && this.dist == dist
    {
      pointAmount := 100;
      distance := 5.0;
      dimension := 256;
      this.dist := dist;
    }

    /** The foreach over the kept points: is any of them closer to newPoint than distance? */
    method IsTooClose(points: seq<Vec2Int>, newPoint: Vec2Int) returns (toClose: bool)
      ensures toClose == TooClose(dist, distance, points, newPoint)
    {
      toClose := false;
      for j := 0 to |points|
        invariant toClose <==> exists k :: 0 <= k < j && dist(points[k], newPoint) < distance
      {
        if dist(points[j], newPoint) < distance {
          toClose := true;
        }
      }
    }

    /**
     * GenerateBluePoints: keeps each candidate no kept point is closer to
     * than distance, then places an object on every kept point that is not
     * a path cell.  The kept points lie inside the square the candidates
     * come from, are pairwise at least distance apart and number at most
     * pointAmount.
     */
    method GenerateBluePoints(candidates: seq<Vec2Int>, pathPositions: seq<Vec2Int>)
      returns (points: seq<Vec2Int>, placed: seq<Vec2Int>)
      requires |candidates| == DrawCount(pointAmount)
      ensures points == Accepted(dist, distance, candidates)
      ensures placed == Unblocked(points, pathPositions)
      ensures |points| <= DrawCount(pointAmount)
      ensures forall p :: p in points ==> p in candidates
      ensures (forall p :: p in candidates ==> InSquare(p, dimension)) ==>
                forall p :: p in points ==> InSquare(p, dimension)
      ensures Spaced(dist, distance, points)
    {
      points := [];
      var i := 0;
      while i < pointAmount
        invariant 0 <= i <= |candidates|
        invariant points == Accepted(dist, distance, candidates[..i])
      {
        var newPoint := candidates[i];
        var toClose := IsTooClose(points, newPoint);
        if !toClose {
          points := points + [newPoint];
        }
        assert candidates[..i + 1][..i] == candidates[..i];
        i := i + 1;
      }
      assert candidates[..i] == candidates;
      AcceptedSpaced(dist, distance, candidates);

      placed := PlaceObjects(points, pathPositions);
    }

    /** The second foreach: an object on each kept point that is not a path cell. */
    method PlaceObjects(points: seq<Vec2Int>, pathPositions: seq<Vec2Int>) returns (placed: seq<Vec2Int>)
      ensures placed == Unblocked(points, pathPositions)
    {
      placed := [];
      for k := 0 to |points|
        invariant placed == Unblocked(points[..k], pathPositions)
      {
        if points[k] !in pathPositions {
          placed := placed + [points[k]];
        }
        assert points[..k + 1][..k] == points[..k];
      }
      assert points[..|points|] == points;
    }
  }
}
