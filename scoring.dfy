/** The combination step of `compareImagesLocal`: the three metrics weighted
    into one score, the verdict against the threshold, the message, and the
    result record with scores rounded to hundredths
    (client/src/imageComparison.js, lines 9-34). */
module Scoring {
  import opened Grids
  import opened RealSqrt
  import opened Sizes
  import opened Pixels
  import opened Histograms

  const SizeWeight: real := 0.2
  const PixelWeight: real := 0.6
  const HistogramWeight: real := 0.2

  /** A pair scoring at least this much is reported as similar. */
  const Threshold: real := 70.0

  const SimilarMessage: string := "Similar Images ✓"
  const DifferentMessage: string := "Different Images ✗"

  /** What a comparison reports. The size metric is only part of the score. */
  datatype ComparisonResult = ComparisonResult(
    similarityScore: real,
    structuralSimilarity: real,
    histogramSimilarity: real,
    isSimilar: bool,
    message: string)

  /** The weighted score. The weights sum to 1, so the score lies between the
      smallest and the largest of the three metrics. */
  function OverallScore(size: real, pixel: real, hist: real): (r: real)
    ensures MinReal(size, MinReal(pixel, hist)) <= r <= MaxReal(size, MaxReal(pixel, hist))
  {
    size * SizeWeight + pixel * PixelWeight + hist * HistogramWeight
  }

  /** `Math.round(x * 100) / 100`, where `Math.round` rounds half-way cases up. */
  function RoundToHundredths(x: real): (r: real)
    ensures x - 0.005 < r <= x + 0.005
    ensures 0.0 <= x <= 100.0 ==> 0.0 <= r <= 100.0
  {
    (x * 100.0 + 0.5).Floor as real / 100.0
  }

  /** A rounded score is a whole number of hundredths. */
  lemma RoundedIsWholeHundredths(x: real)
    ensures var r := RoundToHundredths(x); (r * 100.0).Floor as real == r * 100.0
  {
  }

  /** The result for three metric values: the verdict is taken on the
      unrounded score, and the message follows the verdict. */
  function Summarize(size: real, pixel: real, hist: real): (r: ComparisonResult)
    ensures r.isSimilar <==> OverallScore(size, pixel, hist) >= Threshold
    ensures r.message == SimilarMessage <==> r.isSimilar
    ensures r.message == DifferentMessage <==> !r.isSimilar
    ensures OverallScore(size, pixel, hist) - 0.005 < r.similarityScore <= OverallScore(size, pixel, hist) + 0.005
    ensures pixel - 0.005 < r.structuralSimilarity <= pixel + 0.005
    ensures hist - 0.005 < r.histogramSimilarity <= hist + 0.005
  {
    var overallSimilarity := OverallScore(size, pixel, hist);
    var isSimilar := overallSimilarity >= Threshold;
    ComparisonResult(
      RoundToHundredths(overallSimilarity),
      RoundToHundredths(pixel),
      RoundToHundredths(hist),
      isSimilar,
      if isSimilar then SimilarMessage else DifferentMessage)
  }

  /** The comparison of two canvas buffers and the byte sizes of their files. */
  function Compare(sqrt: real -> real, size1: nat, size2: nat, g1: Grid, g2: Grid): ComparisonResult
    requires 0 < Max(size1, size2)
    requires IsCanvasGrid(g1) && IsCanvasGrid(g2)
  {
    Summarize(SizeSimilarity(size1, size2), PixelSimilarity(sqrt, g1, g2), HistogramSimilarity(sqrt, g1, g2))
  }

  /** The scoring part of `compareImagesLocal`, once both images are loaded. */
  method CompareImagesLocal(sqrt: real -> real, size1: nat, size2: nat, img1Data: Grid, img2Data: Grid)
    returns (result: ComparisonResult)
    requires 0 < Max(size1, size2)
    requires IsCanvasGrid(img1Data) && IsCanvasGrid(img2Data)
    ensures result == Compare(sqrt, size1, size2, img1Data, img2Data)
  {
    var sizeSimilarity := SizeSimilarity(size1, size2);
    var pixelSimilarity := ComparePixelData(sqrt, img1Data, img2Data);
    var histSimilarity := CompareHistograms(sqrt, img1Data, img2Data);
    var overallSimilarity := sizeSimilarity * SizeWeight + pixelSimilarity * PixelWeight + histSimilarity * HistogramWeight;
    var isSimilar := overallSimilarity >= Threshold;
    result := ComparisonResult(
      RoundToHundredths(overallSimilarity),
      RoundToHundredths(pixelSimilarity),
      RoundToHundredths(histSimilarity),
      isSimilar,
      if isSimilar then SimilarMessage else DifferentMessage);
  }

  // ---------------------------------------------------------------------------
  // Properties
  // ---------------------------------------------------------------------------

  /** Every reported score lies in [0, 100]. */
  lemma CompareInRange(sqrt: real -> real, size1: nat, size2: nat, g1: Grid, g2: Grid)
    requires IsSqrt(sqrt)
    requires 0 < Max(size1, size2)
    requires IsCanvasGrid(g1) && IsCanvasGrid(g2)
    ensures var r := Compare(sqrt, size1, size2, g1, g2);
      0.0 <= r.similarityScore <= 100.0 &&
      0.0 <= r.structuralSimilarity <= 100.0 &&
      0.0 <= r.histogramSimilarity <= 100.0
  {
    PixelSimilarityRange(sqrt, g1, g2);
    HistogramSimilarityRange(sqrt, g1, g2);
  }

  /** Swapping the two images changes nothing in the result. */
  lemma CompareSymmetric(sqrt: real -> real, size1: nat, size2: nat, g1: Grid, g2: Grid)
    requires 0 < Max(size1, size2)
    requires IsCanvasGrid(g1) && IsCanvasGrid(g2)
    ensures Compare(sqrt, size1, size2, g1, g2) == Compare(sqrt, size2, size1, g2, g1)
  {
    SizeSimilaritySymmetric(size1, size2);
    PixelSimilaritySymmetric(sqrt, g1, g2);
    HistogramSimilaritySymmetric(sqrt, g1, g2);
  }

  /** An image compared with a copy of itself scores 100 on every count and
      is reported as similar. */
  lemma CompareIdentical(sqrt: real -> real, size: nat, g: Grid)
    requires IsSqrt(sqrt)
    requires 0 < size
    requires IsCanvasGrid(g)
    ensures Compare(sqrt, size, size, g, g) == ComparisonResult(100.0, 100.0, 100.0, true, SimilarMessage)
  {
    PixelSimilaritySelf(sqrt, g);
    HistogramSimilaritySelf(sqrt, g);
  }

  /** Only the red, green and blue samples matter: changing alpha samples
      leaves the result unchanged. */
  lemma CompareIgnoresAlpha(sqrt: real -> real, size1: nat, size2: nat, g1: Grid, g1': Grid, g2: Grid)
    requires 0 < Max(size1, size2)
    requires IsCanvasGrid(g1) && IsCanvasGrid(g2)
    requires SameColours(g1, g1')
    ensures Compare(sqrt, size1, size2, g1, g2) == Compare(sqrt, size1, size2, g1', g2)
  {
    PixelSimilarityIgnoresAlpha(sqrt, g1, g1', g2);
    HistogramIgnoresAlpha(g1, g1');
  }

  /** A black image against a white one: the pixel and histogram metrics are
      0, so the score is at most the size metric's share and the pair is
      reported as different. */
  lemma CompareBlackAndWhite(sqrt: real -> real, size1: nat, size2: nat, g1: Grid, g2: Grid)
    requires IsSqrt(sqrt)
    requires 0 < Max(size1, size2)
    requires IsCanvasGrid(g1) && IsCanvasGrid(g2)
    requires SolidColour(g1, 0, 0, 0) && SolidColour(g2, 255, 255, 255)
    ensures var r := Compare(sqrt, size1, size2, g1, g2);
      r.structuralSimilarity == 0.0 && r.histogramSimilarity == 0.0 &&
      r.similarityScore <= 20.0 && !r.isSimilar && r.message == DifferentMessage
  {
    PixelSimilarityOfBlackAndWhite(sqrt, g1, g2);
    assert AllRed(g1, 0) && AllRed(g2, 255);
    HistogramSimilarityDisjoint(sqrt, g1, g2, 0, 255);
  }

  /** The verdict is taken before rounding: a score in [69.995, 70) is
      reported as 70.00 and yet as different. */
  lemma RoundedScoreCanHideVerdict(size: real, pixel: real, hist: real)
    requires 69.995 <= OverallScore(size, pixel, hist) < Threshold
    ensures Summarize(size, pixel, hist).similarityScore == 70.0
    ensures !Summarize(size, pixel, hist).isSimilar
  {
    var x := OverallScore(size, pixel, hist);
    assert 7000.0 <= x * 100.0 + 0.5 < 7001.0;
  }
}
