/** The pixel metric: the mean RGB Euclidean distance over the common prefix of
    two buffers, mapped to a percentage (client/src/imageComparison.js, lines 79-108). */
module Pixels {
  import opened Grids
  import opened RealSqrt

  /** The divisor the metric takes as the largest RGB distance. The true
      largest distance, between black and white, is sqrt(3 * 255 * 255),
      about 441.67, a little more. */
  const MaxDistance: real := 441.0

  /** `x - y` raised to the power 2. */
  function SquaredDifference(x: int, y: int): real {
    ((x - y) * (x - y)) as real
  }

  /** The squared distance between the red, green and blue samples of the
      pixels at offset `i` of `a` and of `b`. */
  function SquaredDistance(a: Grid, b: Grid, i: nat): real
    requires i + 2 < |a| && i + 2 < |b|
  {
    ColourDistance(a[i], a[i + 1], a[i + 2], b[i], b[i + 1], b[i + 2])
  }

  /** The squared RGB distance between two colours. */
  function ColourDistance(r1: Byte, g1: Byte, b1: Byte, r2: Byte, g2: Byte, b2: Byte): real {
    SquaredDifference(r1, r2) + SquaredDifference(g1, g2) + SquaredDifference(b1, b2)
  }

  /** The sum of the RGB distances of the first `k` pixels. */
  function TotalDistance(sqrt: real -> real, a: Grid, b: Grid, k: nat): real
    requires 4 * k <= |a| && 4 * k <= |b|
  {
    if k == 0 then 0.0
    else TotalDistance(sqrt, a, b, k - 1) + sqrt(SquaredDistance(a, b, 4 * (k - 1)))
  }

  /** The number of pixels compared: one per four samples of the shorter buffer. */
  function PixelCount(a: Grid, b: Grid): nat {
    (Min(|a|, |b|) + 3) / 4
  }

  /** The mean distance over the compared pixels, 0 when there are none. */
  function AverageDistance(sqrt: real -> real, a: Grid, b: Grid): real
    requires WholePixels(a) && WholePixels(b)
  {
    var n := PixelCount(a, b);
    if n > 0 then TotalDistance(sqrt, a, b, n) / n as real else 0.0
  }

  /** 100 minus the mean distance as a percentage of `MaxDistance`, clamped below at 0. */
  function PixelSimilarity(sqrt: real -> real, a: Grid, b: Grid): real
    requires WholePixels(a) && WholePixels(b)
  {
    MaxReal(0.0, 100.0 - AverageDistance(sqrt, a, b) / MaxDistance * 100.0)
  }

  method ComparePixelData(sqrt: real -> real, pixelData1: Grid, pixelData2: Grid) returns (similarity: real)
    requires WholePixels(pixelData1) && WholePixels(pixelData2)
    ensures similarity == PixelSimilarity(sqrt, pixelData1, pixelData2)
  {
    var minLength := Min(|pixelData1|, |pixelData2|);
    PixelCountOfWholePixels(pixelData1, pixelData2);
    var totalDifference := 0.0;
    var pixelCount := 0;
    var i := 0;
    while i < minLength
      invariant i == 4 * pixelCount && i <= minLength
      invariant totalDifference == TotalDistance(sqrt, pixelData1, pixelData2, pixelCount)
    {
      var r1, g1, b1 := pixelData1[i], pixelData1[i + 1], pixelData1[i + 2];
      var r2, g2, b2 := pixelData2[i], pixelData2[i + 1], pixelData2[i + 2];
      var diff := sqrt(SquaredDifference(r1, r2) + SquaredDifference(g1, g2) + SquaredDifference(b1, b2));
      totalDifference := totalDifference + diff;
      pixelCount := pixelCount + 1;
      i := i + 4;
    }
    var avgDifference := if pixelCount > 0 then totalDifference / pixelCount as real else 0.0;
    similarity := MaxReal(0.0, 100.0 - avgDifference / MaxDistance * 100.0);
  }

  // ---------------------------------------------------------------------------
  // Properties
  // ---------------------------------------------------------------------------

  /** With whole pixels, the loop compares exactly the pixels of the shorter buffer. */
  lemma PixelCountOfWholePixels(a: Grid, b: Grid)
    requires WholePixels(a) && WholePixels(b)
    ensures 4 * PixelCount(a, b) == Min(|a|, |b|)
  {
  }

  lemma {:induction false} TotalDistanceSymmetric(sqrt: real -> real, a: Grid, b: Grid, k: nat)
    requires 4 * k <= |a| && 4 * k <= |b|
    ensures TotalDistance(sqrt, a, b, k) == TotalDistance(sqrt, b, a, k)
  {
    if k > 0 {
      var i := 4 * (k - 1);
      TotalDistanceSymmetric(sqrt, a, b, k - 1);
      assert SquaredDifference(a[i], b[i]) == SquaredDifference(b[i], a[i]);
      assert SquaredDifference(a[i + 1], b[i + 1]) == SquaredDifference(b[i + 1], a[i + 1]);
      assert SquaredDifference(a[i + 2], b[i + 2]) == SquaredDifference(b[i + 2], a[i + 2]);
      assert SquaredDistance(a, b, i) == SquaredDistance(b, a, i);
    }
  }

  /** The pixel metric does not depend on the order of the buffers. */
  lemma PixelSimilaritySymmetric(sqrt: real -> real, a: Grid, b: Grid)
    requires WholePixels(a) && WholePixels(b)
    ensures PixelSimilarity(sqrt, a, b) == PixelSimilarity(sqrt, b, a)
  {
    TotalDistanceSymmetric(sqrt, a, b, PixelCount(a, b));
  }

  lemma {:induction false} TotalDistanceNonNegative(sqrt: real -> real, a: Grid, b: Grid, k: nat)
    requires IsSqrt(sqrt)
    requires 4 * k <= |a| && 4 * k <= |b|
    ensures 0.0 <= TotalDistance(sqrt, a, b, k)
  {
    if k > 0 {
      var i := 4 * (k - 1);
      TotalDistanceNonNegative(sqrt, a, b, k - 1);
      assert 0.0 <= SquaredDistance(a, b, i) by {
        SquaredDifferenceNonNegative(a[i], b[i]);
        SquaredDifferenceNonNegative(a[i + 1], b[i + 1]);
        SquaredDifferenceNonNegative(a[i + 2], b[i + 2]);
      }
    }
  }

  lemma SquaredDifferenceNonNegative(x: int, y: int)
    ensures 0.0 <= SquaredDifference(x, y)
  {
    var d := x - y;
    if d < 0 {
      assert d * d == (-d) * (-d);
    }
  }

  /** The mean distance is never negative. */
  lemma AverageDistanceNonNegative(sqrt: real -> real, a: Grid, b: Grid)
    requires IsSqrt(sqrt)
    requires WholePixels(a) && WholePixels(b)
    ensures 0.0 <= AverageDistance(sqrt, a, b)
  {
    var n := PixelCount(a, b);
    if n > 0 {
      TotalDistanceNonNegative(sqrt, a, b, n);
      var t := TotalDistance(sqrt, a, b, n);
      assert 0.0 <= t / n as real;
    }
  }

  /** The pixel metric lies in [0, 100]. */
  lemma PixelSimilarityRange(sqrt: real -> real, a: Grid, b: Grid)
    requires IsSqrt(sqrt)
    requires WholePixels(a) && WholePixels(b)
    ensures 0.0 <= PixelSimilarity(sqrt, a, b) <= 100.0
  {
    AverageDistanceNonNegative(sqrt, a, b);
  }

  lemma {:induction false} TotalDistanceOfSameColours(sqrt: real -> real, a: Grid, b: Grid, k: nat)
    requires IsSqrt(sqrt)
    requires 4 * k <= |a| && 4 * k <= |b|
    requires forall i :: 0 <= i < 4 * k && i % 4 != 3 ==> a[i] == b[i]
    ensures TotalDistance(sqrt, a, b, k) == 0.0
  {
    if k > 0 {
      var i := 4 * (k - 1);
      TotalDistanceOfSameColours(sqrt, a, b, k - 1);
      assert a[i] == b[i] && a[i + 1] == b[i + 1] && a[i + 2] == b[i + 2];
      assert SquaredDistance(a, b, i) == 0.0;
      SqrtZero(sqrt);
    }
  }

  /** Buffers whose red, green and blue samples agree over the compared prefix
      score 100; so do buffers with no pixel to compare. */
  lemma PixelSimilarityOfSameColours(sqrt: real -> real, a: Grid, b: Grid)
    requires IsSqrt(sqrt)
    requires WholePixels(a) && WholePixels(b)
    requires forall i :: 0 <= i < Min(|a|, |b|) && i % 4 != 3 ==> a[i] == b[i]
    ensures PixelSimilarity(sqrt, a, b) == 100.0
  {
    var n := PixelCount(a, b);
    TotalDistanceOfSameColours(sqrt, a, b, n);
  }

  /** A buffer compared with itself scores 100. */
  lemma PixelSimilaritySelf(sqrt: real -> real, a: Grid)
    requires IsSqrt(sqrt)
    requires WholePixels(a)
    ensures PixelSimilarity(sqrt, a, a) == 100.0
  {
    PixelSimilarityOfSameColours(sqrt, a, a);
  }

  lemma {:induction false} TotalDistanceIgnoresAlpha(sqrt: real -> real, a: Grid, a': Grid, b: Grid, k: nat)
    requires SameColours(a, a')
    requires 4 * k <= |a| && 4 * k <= |b|
    ensures TotalDistance(sqrt, a, b, k) == TotalDistance(sqrt, a', b, k)
  {
    if k > 0 {
      var i := 4 * (k - 1);
      TotalDistanceIgnoresAlpha(sqrt, a, a', b, k - 1);
      assert a[i] == a'[i] && a[i + 1] == a'[i + 1] && a[i + 2] == a'[i + 2];
      assert SquaredDistance(a, b, i) == SquaredDistance(a', b, i);
    }
  }

  /** Only offsets `i`, `i + 1` and `i + 2` of each pixel are read: changing
      alpha samples leaves the metric unchanged. */
  lemma PixelSimilarityIgnoresAlpha(sqrt: real -> real, a: Grid, a': Grid, b: Grid)
    requires SameColours(a, a')
    requires WholePixels(a) && WholePixels(b)
    ensures PixelSimilarity(sqrt, a, b) == PixelSimilarity(sqrt, a', b)
  {
    TotalDistanceIgnoresAlpha(sqrt, a, a', b, PixelCount(a, b));
  }

  /** The squared distance of pixel number `j`. */
  function PixelDistance(a: Grid, b: Grid, j: nat): real
    requires 4 * j + 4 <= |a| && 4 * j + 4 <= |b|
  {
    SquaredDistance(a, b, 4 * j)
  }

  /** When every compared pixel is at the same squared distance `d`, the
      total is `k` times its root. */
  lemma {:induction false} TotalDistanceOfUniformDistance(sqrt: real -> real, a: Grid, b: Grid, k: nat, d: real)
    requires 4 * k <= |a| && 4 * k <= |b|
    requires forall j :: 0 <= j < k ==> PixelDistance(a, b, j) == d
    ensures TotalDistance(sqrt, a, b, k) == k as real * sqrt(d)
  {
    if k > 0 {
      var s := sqrt(d);
      TotalDistanceOfUniformDistance(sqrt, a, b, k - 1, d);
      assert TotalDistance(sqrt, a, b, k) == TotalDistance(sqrt, a, b, k - 1) + s by {
        assert PixelDistance(a, b, k - 1) == d;
      }
      MulSucc(k, s);
    }
  }

  lemma MulSucc(k: nat, s: real)
    requires 0 < k
    ensures (k - 1) as real * s + s == k as real * s
  {
  }

  lemma MeanOfMultiple(t: real, n: nat, s: real)
    requires 0 < n && t == n as real * s
    ensures t / n as real == s
  {
  }

  /** Two single-colour buffers of the same, non-zero length score the
      distance between their colours, mapped to a percentage and clamped. */
  lemma PixelSimilarityOfSolidColours(sqrt: real -> real, a: Grid, b: Grid,
                                      r1: Byte, g1: Byte, b1: Byte, r2: Byte, g2: Byte, b2: Byte)
    requires SolidColour(a, r1, g1, b1) && SolidColour(b, r2, g2, b2)
    requires WholePixels(a) && WholePixels(b) && |a| == |b| > 0
    ensures AverageDistance(sqrt, a, b) == sqrt(ColourDistance(r1, g1, b1, r2, g2, b2))
    ensures PixelSimilarity(sqrt, a, b)
         == MaxReal(0.0, 100.0 - sqrt(ColourDistance(r1, g1, b1, r2, g2, b2)) / MaxDistance * 100.0)
  {
    PixelCountOfWholePixels(a, b);
    SolidColoursUniformDistance(a, b, r1, g1, b1, r2, g2, b2, PixelCount(a, b));
    AverageOfUniformDistance(sqrt, a, b, ColourDistance(r1, g1, b1, r2, g2, b2));
  }

  /** When every compared pixel is at the same squared distance `d`, the
      mean distance is its root. */
  lemma AverageOfUniformDistance(sqrt: real -> real, a: Grid, b: Grid, d: real)
    requires WholePixels(a) && WholePixels(b) && 0 < PixelCount(a, b)
    requires 4 * PixelCount(a, b) <= |a| && 4 * PixelCount(a, b) <= |b|
    requires forall j :: 0 <= j < PixelCount(a, b) ==> PixelDistance(a, b, j) == d
    ensures AverageDistance(sqrt, a, b) == sqrt(d)
  {
    var n := PixelCount(a, b);
    TotalDistanceOfUniformDistance(sqrt, a, b, n, d);
    MeanOfMultiple(TotalDistance(sqrt, a, b, n), n, sqrt(d));
  }

  /** Every pixel of two single-colour buffers is at the distance between
      the two colours. */
  lemma SolidColoursUniformDistance(a: Grid, b: Grid,
                                    r1: Byte, g1: Byte, b1: Byte, r2: Byte, g2: Byte, b2: Byte, k: nat)
    requires SolidColour(a, r1, g1, b1) && SolidColour(b, r2, g2, b2)
    requires 4 * k <= |a| && 4 * k <= |b|
    ensures forall j :: 0 <= j < k ==> PixelDistance(a, b, j) == ColourDistance(r1, g1, b1, r2, g2, b2)
  {
    forall j | 0 <= j < k
      ensures PixelDistance(a, b, j) == ColourDistance(r1, g1, b1, r2, g2, b2)
    {
      SolidColourAt(a, r1, g1, b1, 4 * j);
      SolidColourAt(b, r2, g2, b2, 4 * j);
    }
  }

  /** Black against white scores 0. Their distance, sqrt(195075), exceeds the
      divisor 441, so before the clamp the score is slightly negative. */
  lemma PixelSimilarityOfBlackAndWhite(sqrt: real -> real, a: Grid, b: Grid)
    requires IsSqrt(sqrt)
    requires SolidColour(a, 0, 0, 0) && SolidColour(b, 255, 255, 255)
    requires WholePixels(a) && WholePixels(b) && |a| == |b| > 0
    ensures 100.0 - AverageDistance(sqrt, a, b) / MaxDistance * 100.0 < 0.0
    ensures PixelSimilarity(sqrt, a, b) == 0.0
  {
    PixelSimilarityOfSolidColours(sqrt, a, b, 0, 0, 0, 255, 255, 255);
    assert ColourDistance(0, 0, 0, 255, 255, 255) == 195075.0;
    SqrtAbove(sqrt, 195075.0, MaxDistance);
  }
}
