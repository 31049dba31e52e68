/**
 * The VoronoiDiagram sprite: random centroids with random region colours
 * plus a white sentinel region at (0, 0), and a pixel array in which each
 * pixel takes the colour of its nearest centroid.
 */
module VoronoiDiagram {
  import opened MachineInt
  import opened UnityMath
  import opened Wrappers
  import opened CentroidSearch

  /** UnityEngine.Color */
  datatype Color = Color(r: real, g: real, b: real, a: real)

  /** new Color(1f, 1f, 1f, 1f), the sentinel region's colour. */
  const WHITE: Color := Color(1.0, 1.0, 1.0, 1.0)

  /** default(Color), the value of an unwritten array element. */
  const CLEAR: Color := Color(0.0, 0.0, 0.0, 0.0)

  /** Three Random.Range(0f, 1f) draws for one region colour. */
  datatype Rgb = Rgb(r: real, g: real, b: real)

  /** The region colour array: one opaque colour per draw, then white. */
  function Regions(draws: seq<Rgb>): (regions: seq<Color>)
    ensures |regions| == |draws| + 1 && regions[|draws|] == WHITE
    ensures forall i :: 0 <= i < |draws| ==> regions[i].a == 1.0
  {
    seq(|draws|, i requires 0 <= i < |draws| => Color(draws[i].r, draws[i].g, draws[i].b, 1.0)) + [WHITE]
  }

  /** `x * imageDim.x + y` */
  function PixelIndex(width: int, x: int, y: int): int
  {
    x * width + y
  }

  lemma MultipleBounds(d: int, w: nat)
    ensures d >= 1 ==> d * w >= w
    ensures d <= -1 ==> d * w <= -(w as int)
  {
  }

  /** q * w + r with 0 <= r < w has quotient q and remainder r. */
  lemma {:induction false} DivModOfDecomposition(w: nat, q: int, r: int)
    requires 0 <= r < w
    ensures (q * w + r) / w == q && (q * w + r) % w == r
  {
    var n := q * w + r;
    var d := n / w - q;
    assert d * w == r - n % w;
    MultipleBounds(d, w);
  }

  /** On a square image the pixel index is a bijection onto [0, width^2). */
  lemma {:induction false} PixelIndexSquare(width: nat, x: int, y: int)
    requires 0 <= x < width && 0 <= y < width
    ensures 0 <= PixelIndex(width, x, y) < width * width
    ensures PixelIndex(width, x, y) / width == x && PixelIndex(width, x, y) % width == y
  {
    RowInRange(width, width, x, y);
    DivModOfDecomposition(width, x, y);
  }

  lemma NextRow(width: int, x: int)
    ensures PixelIndex(width, x + 1, 0) == PixelIndex(width, x, 0) + width
  {
  }

  lemma MultiplyMonotone(a: int, b: int, w: nat)
    requires a <= b
    ensures a * w <= b * w
  {
    assert b * w - a * w == (b - a) * w;
  }

  /**
   * Row x of a width-by-height image lies inside the pixel array exactly
   * when x < height: an image wider than it is tall runs past the end at
   * its row `height`, one at least as tall as it is wide never does.
   */
  lemma {:induction false} RowInRange(width: nat, height: nat, x: nat, y: nat)
    requires x < width && y < height
    ensures PixelIndex(width, x, y) < width * height <==> x < height
  {
    if x >= height {
      MultiplyMonotone(height, x, width);
    } else if height <= width {
      MultiplyMonotone(x + 1, height, width);
    } else {
      MultiplyMonotone(x, width - 1, width);
      MultiplyMonotone(width, height, width - 1);
    }
  }

  /** The exception GetDiagram's pixel loop can raise. */
  datatype DiagramError = IndexOutOfRange

  class VoronoiDiagram {
    var imageDim: Vec2Int
    var regionAmount: Int32
    /** Vector2.Distance */
    const dist: Metric

    constructor (dist: Metric)
      ensures imageDim == Vec2Int(256, 256) && regionAmount == 20 && this.dist == dist
    {
      imageDim := Vec2Int(256, 256);
      regionAmount := 20;
      this.dist := dist;
    }

    /**
     * GetClosestCentroidIndex: the running-minimum walk; with at least one
     * centroid the index is that of the first of the nearest centroids.
     */
    method GetClosestCentroidIndex(pixelPos: Vec2Int, centroids: array<Vec2Int>) returns (index: int)
      ensures index == Closest(dist, centroids[..], pixelPos)
      ensures centroids.Length > 0 ==> 0 <= index < centroids.Length
      ensures ValidMetric(dist) && centroids.Length > 0 ==>
                (forall i :: 0 <= i < centroids.Length ==>
                   dist(pixelPos, centroids[index]) <= dist(pixelPos, centroids[i])) &&
                (forall i :: 0 <= i < index ==>
                   dist(pixelPos, centroids[index]) < dist(pixelPos, centroids[i]))
    {
      ghost var ds := Distances(dist, pixelPos, centroids[..]);
      var smallestDst := FLOAT_MAX;
      var secondSmallestDst := FLOAT_MAX;
      index := 0;
      assert ds[..0] == [];
      for i := 0 to centroids.Length
        invariant Search(smallestDst, secondSmallestDst, index) == Scan(ds[..i])
      {
        ScanStep(ds, i);
        if dist(pixelPos, centroids[i]) < smallestDst {
          secondSmallestDst := smallestDst;
          smallestDst := dist(pixelPos, centroids[i]);
          index := i;
        }
      }
      assert ds[..centroids.Length] == ds;
      if ValidMetric(dist) && centroids.Length > 0 {
        DistancesValid(dist, pixelPos, centroids[..]);
        ScanFindsFirstNearest(ds);
        forall i | 0 <= i < centroids.Length
          ensures ds[i] == dist(pixelPos, centroids[i])
        {
        }
      }
    }

    /** The region colour array of GetDiagram: the drawn colours, then white. */
    method NewRegions(colourDraws: seq<Rgb>) returns (regions: array<Color>)
      requires 0 <= regionAmount && |colourDraws| == regionAmount as int
      ensures regions[..] == Regions(colourDraws)
    {
      regions := new Color[regionAmount + 1](_ => CLEAR);
      regions[regionAmount] := WHITE;
      for i := 0 to regionAmount
        invariant regions[..i] == Regions(colourDraws)[..i]
        invariant regions[regionAmount] == WHITE
      {
        regions[i] := Color(colourDraws[i].r, colourDraws[i].g, colourDraws[i].b, 1.0);
      }
    }

    /**
     * One row of GetDiagram's pixel loop: pixels (x, 0) .. (x, height - 1)
     * take the colour of the region of their nearest centroid.  The row
     * stops, reporting false, at the first index past the end of the array,
     * which happens exactly on a row x >= height.  `rowStart` is the index
     * of pixel (x, 0).
     */
    method PaintRow(x: int, width: int, height: int, centroids: array<Vec2Int>, regions: array<Color>,
                    pixelColors: array<Color>, ghost expected: seq<Color>, ghost rowStart: int)
        returns (ok: bool)
      requires 0 <= x < width && 0 <= height && pixelColors.Length == width * height
      requires rowStart == PixelIndex(width, x, 0)
      requires 0 < centroids.Length == regions.Length && regions != pixelColors
      requires |expected| == pixelColors.Length
      requires width == height ==> forall i :: 0 <= i < |expected| ==>
                 expected[i] == regions[Closest(dist, centroids[..], Vec2Int(i / width, i % width))]
      requires width == height ==> rowStart <= pixelColors.Length
      requires width == height ==> forall i :: 0 <= i < rowStart ==> pixelColors[i] == expected[i]
      modifies pixelColors
      ensures ok <==> !(1 <= height <= x)
      ensures width == height ==> rowStart + width <= pixelColors.Length
      ensures width == height ==> forall i :: 0 <= i < rowStart + width ==> pixelColors[i] == expected[i]
    {
      var y := 0;
      while y < height
        invariant 0 <= y <= height && (1 <= height <= x ==> y == 0)
        invariant width == height ==> rowStart + y <= pixelColors.Length
        invariant width == height ==> forall i :: 0 <= i < rowStart + y ==> pixelColors[i] == expected[i]
      {
        var index := PixelIndex(width, x, y);
        assert index == rowStart + y;
        RowInRange(width, height, x, y);
        if index >= pixelColors.Length {
          return false;
        }
        var closest := GetClosestCentroidIndex(Vec2Int(x, y), centroids);
        if width == height {
          PixelIndexSquare(width, x, y);
          assert expected[index] == regions[closest];
        }
        pixelColors[index] := regions[closest];
        y := y + 1;
      }
      ok := true;
    }

    /**
     * GetDiagram: the centroid and region arrays, then the pixel array.
     * The pixel loop writes `pixelColors[x * imageDim.x + y]`, which runs past
     * the end of the array exactly when the image is wider than it is tall;
     * on a square image every pixel is written once, with the colour of the
     * region of its nearest centroid.
     */
    method GetDiagram(centroidDraws: seq<Vec2Int>, colourDraws: seq<Rgb>)
        returns (result: Result<array<Color>, DiagramError>)
      requires 0 <= imageDim.x <= 46340 && 0 <= imageDim.y <= 46340
      requires 0 <= regionAmount && |centroidDraws| == regionAmount as int && |colourDraws| == regionAmount as int
      ensures result.Ok? <==> !(1 <= imageDim.y < imageDim.x)
      ensures result.Ok? ==> result.value.Length == imageDim.x * imageDim.y
      ensures result.Ok? && imageDim.x == imageDim.y ==>
                forall i :: 0 <= i < result.value.Length ==>
                  result.value[i] == Regions(colourDraws)[Closest(dist, Centroids(centroidDraws), Vec2Int(i / imageDim.x, i % imageDim.x))]
    {
      var width, height := imageDim.x, imageDim.y;
      var centroids := NewCentroids(centroidDraws);
      var regions := NewRegions(colourDraws);
      var pixelCount := width * height;
      var pixelColors := new Color[pixelCount](_ => CLEAR);
      ghost var expected := seq(pixelCount, i requires 0 <= i < pixelCount =>
        Regions(colourDraws)[Closest(dist, Centroids(centroidDraws), Vec2Int(i / width, i % width))]);
      var x := 0;
      ghost var rowStart := 0;
      while x < width
        invariant 0 <= x <= width && (1 <= height ==> x <= height)
        invariant rowStart == PixelIndex(width, x, 0)
        invariant regions[..] == Regions(colourDraws) && centroids[..] == Centroids(centroidDraws)
        invariant width == height ==> rowStart <= pixelColors.Length
        invariant width == height ==> forall i :: 0 <= i < rowStart ==> pixelColors[i] == expected[i]
      {
        var ok := PaintRow(x, width, height, centroids, regions, pixelColors, expected, rowStart);
        if !ok {
          return Err(IndexOutOfRange);
        }
        NextRow(width, x);
        x, rowStart := x + 1, rowStart + width;
      }
      if width == height {
        assert rowStart == pixelColors.Length;
        assert pixelColors[..] == expected;
      }
      result := Ok(pixelColors);
    }
  }
}
