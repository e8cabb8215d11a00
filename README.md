# Image comparison scoring

A model of the scoring core of a browser tool that decides whether two
images look alike. Each image is drawn onto a 256 x 256 canvas. The RGBA
bytes of the two canvases and the byte sizes of the two files go into
three metrics:

- a **size** metric: the smaller file size as a percentage of the larger;
- a **pixel** metric: the mean RGB Euclidean distance over corresponding
  pixels, as a percentage of 441 taken from 100 and clamped at 0;
- a **histogram** metric: the Bhattacharyya coefficient of the normalised
  256-bin red-channel histograms, as a percentage.

The three are weighted 0.2 / 0.6 / 0.2 into one score. A score of at least
70 is reported as "Similar Images ✓" and anything lower as "Different
Images ✗". Each reported score is rounded to hundredths.

The modules follow the source functions:

- `Grids` (grids.dfy): bytes, pixel buffers, canvas size.
- `Histograms` (histograms.dfy): `buildHistogram` and `compareHistograms`.
- `Pixels` (pixels.dfy): `comparePixelData`.
- `Sizes` (sizes.dfy): `calculateSizeSimilarity`.
- `Scoring` (scoring.dfy): the combination step of `compareImagesLocal`.
- `RealSqrt` (sqrt.dfy): what the proofs assume of the square root.

The three loops of the source are methods with loop invariants:

- `BuildHistogram` fills a 256-element `array` in place.
- `ComparePixelData` and `CompareHistograms` accumulate sums.

Each method is proved equal to a specification function. The properties
are lemmas about those functions.

## Treatment of `Math.sqrt`

Dafny has no real square root. Every member that takes a root receives it
as a parameter `sqrt: real -> real`, so the functions and methods hold for
any such function. Lemmas that depend on what a root is require
`RealSqrt.IsSqrt(sqrt)`: for every `x >= 0`, `sqrt(x) >= 0` and
`sqrt(x) * sqrt(x) == x`.

## Model

| member | source | states |
|---|---|---|
| Histograms.BuildHistogram | client/src/imageComparison.js:129-141 | The returned histogram is `Histogram(g)`: the red-sample counts, each divided by their total, or all zeros when nothing was counted. The loop keeps the array equal to the counts of the samples visited so far. |
| Histograms.CountsStep | client/src/imageComparison.js:133-135 | One turn of the counting loop adds one to the bin of the red value at offset `i` and changes no other bin. |
| Histograms.CountsTotal | client/src/imageComparison.js:133-136 | Once the loop has reached offset `i`, the bins together hold `i / 4` counts, one per visited pixel. |
| Histograms.RedCountCountsOffsets | client/src/imageComparison.js:133-136 | Bin `v` holds exactly the number of offsets `i` with `i % 4 == 0` and `g[i] == v`. |
| Histograms.RedCountsTotal | client/src/imageComparison.js:130-136 | The raw bins sum to ceil(len / 4), the number of red samples. |
| Histograms.NormalizeNonNegative | client/src/imageComparison.js:139-140 | Every normalised bin is non-negative. |
| Histograms.NormalizeSumsToOne | client/src/imageComparison.js:139-140 | When something was counted, the normalised bins sum to 1. |
| Histograms.HistogramIsDistribution | client/src/imageComparison.js:129-141 | A histogram has exactly 256 non-negative bins. They sum to 1 for a non-empty buffer. For an empty buffer every bin is 0. |
| Histograms.CompareHistograms | client/src/imageComparison.js:111-126 | The result is `HistogramSimilarity`: the sum of `sqrt(hist1[i] * hist2[i])` over the 256 bins, times 100, clamped below at 0. The loop keeps the running sum equal to the coefficient of the bins visited. |
| Histograms.BhattacharyyaSymmetric | client/src/imageComparison.js:116-119 | The coefficient does not change when the two histograms are swapped. |
| Histograms.BhattacharyyaBound | client/src/imageComparison.js:116-119 | Over non-negative bins the coefficient is non-negative and at most the mean of the two totals. |
| Histograms.BhattacharyyaSelf | client/src/imageComparison.js:116-119 | The coefficient of a non-negative histogram with itself is the total of its bins. |
| Histograms.BhattacharyyaDisjoint | client/src/imageComparison.js:116-119 | Histograms with no non-empty bin in common have coefficient 0. |
| Histograms.HistogramSimilaritySymmetric | client/src/imageComparison.js:111-126 | The histogram metric does not depend on the order of the buffers. |
| Histograms.HistogramSimilarityRange | client/src/imageComparison.js:121-125 | The histogram metric lies in [0, 100] and equals the coefficient times 100, so the clamp at 0 never applies. |
| Histograms.HistogramSimilaritySelf | client/src/imageComparison.js:111-126 | A non-empty buffer compared with itself scores 100. |
| Histograms.AllRedCounts | client/src/imageComparison.js:133-135 | When every red sample is `r`, every other bin stays 0. |
| Histograms.HistogramSimilarityDisjoint | client/src/imageComparison.js:111-126 | Two buffers whose red samples are one value each, and two different values, score 0. |
| Histograms.RedCountIgnoresOtherChannels | client/src/imageComparison.js:133-135 | The bins read only the red sample of each pixel. |
| Histograms.HistogramIgnoresAlpha | client/src/imageComparison.js:129-141 | Buffers that agree on every non-alpha sample have the same histogram. |
| Pixels.ComparePixelData | client/src/imageComparison.js:80-108 | The result is `PixelSimilarity`: 100 minus the mean RGB distance over the common prefix as a percentage of 441, clamped below at 0; the mean is 0 when no pixel is compared. The loop keeps the running total equal to the distance sum over the visited pixels, and the pixel counter equal to their number. |
| Pixels.PixelCountOfWholePixels | client/src/imageComparison.js:81-86 | For buffers of whole pixels, the loop compares exactly min(len1, len2) / 4 pixels. |
| Pixels.TotalDistanceSymmetric | client/src/imageComparison.js:86-101 | The distance sum does not change when the buffers are swapped. |
| Pixels.PixelSimilaritySymmetric | client/src/imageComparison.js:80-108 | The pixel metric does not depend on the order of the buffers. |
| Pixels.TotalDistanceNonNegative | client/src/imageComparison.js:95-99 | The distance sum is never negative. |
| Pixels.AverageDistanceNonNegative | client/src/imageComparison.js:103 | The mean distance is never negative. |
| Pixels.PixelSimilarityRange | client/src/imageComparison.js:103-107 | The pixel metric lies in [0, 100]. |
| Pixels.TotalDistanceOfSameColours | client/src/imageComparison.js:86-101 | Pixels that agree on red, green and blue add nothing to the sum. |
| Pixels.PixelSimilarityOfSameColours | client/src/imageComparison.js:80-108 | Buffers that agree on RGB over the compared prefix score 100. So do buffers with no pixel to compare. |
| Pixels.PixelSimilaritySelf | client/src/imageComparison.js:80-108 | A buffer compared with itself scores 100. |
| Pixels.TotalDistanceIgnoresAlpha | client/src/imageComparison.js:87-93 | The distance sum reads only offsets `i`, `i + 1` and `i + 2` of each pixel. |
| Pixels.PixelSimilarityIgnoresAlpha | client/src/imageComparison.js:80-108 | Changing alpha samples leaves the pixel metric unchanged. |
| Pixels.TotalDistanceOfUniformDistance | client/src/imageComparison.js:86-101 | When every pixel is at the same squared distance `d`, the sum over `k` pixels is `k * sqrt(d)`. |
| Pixels.AverageOfUniformDistance | client/src/imageComparison.js:103 | When every compared pixel is at the same squared distance `d`, the mean is `sqrt(d)`. |
| Pixels.SolidColoursUniformDistance | client/src/imageComparison.js:87-98 | Every pixel of two single-colour buffers is at the distance between the two colours. |
| Pixels.PixelSimilarityOfSolidColours | client/src/imageComparison.js:80-108 | Two single-colour buffers of equal, non-zero length have mean distance equal to the RGB distance of their colours, and score that distance mapped through the percentage and the clamp. |
| Pixels.PixelSimilarityOfBlackAndWhite | client/src/imageComparison.js:103-107 | Black against white scores 0. Their distance, sqrt(195075), exceeds 441, so the score before the clamp is negative. |
| Sizes.SizeSimilarity | client/src/imageComparison.js:72-77 | The size metric lies in [0, 100]. It is 100 exactly when the sizes are equal and 0 exactly when one size is 0. |
| Sizes.RatioBounds | client/src/imageComparison.js:73-75 | The quotient of the smaller by the larger lies in [0, 1]. It is 1 exactly when they are equal and 0 exactly when the smaller is 0. |
| Sizes.SizeSimilaritySymmetric | client/src/imageComparison.js:72-77 | The size metric does not depend on the order of the files. |
| Scoring.OverallScore | client/src/imageComparison.js:22-23 | The weighted score lies between the smallest and the largest metric, since the weights sum to 1. |
| Scoring.RoundToHundredths | client/src/imageComparison.js:29-31 | Rounding moves a value by at most half a hundredth and keeps values in [0, 100] within [0, 100]. |
| Scoring.RoundedIsWholeHundredths | client/src/imageComparison.js:29-31 | A rounded value is a whole number of hundredths. |
| Scoring.Summarize | client/src/imageComparison.js:22-33 | The verdict holds exactly when the unrounded weighted score is at least 70. The message is "Similar Images ✓" exactly when the verdict holds and "Different Images ✗" exactly when it does not. Each reported score is within half a hundredth of its metric. |
| Scoring.CompareImagesLocal | client/src/imageComparison.js:9-34 | The result is `Compare`: the three metrics of the two buffers and sizes, combined by `Summarize`. |
| Scoring.CompareInRange | client/src/imageComparison.js:28-31 | Every reported score lies in [0, 100]. |
| Scoring.CompareSymmetric | client/src/imageComparison.js:9-34 | Swapping the two images (buffers and sizes) leaves the result unchanged. |
| Scoring.CompareIdentical | client/src/imageComparison.js:9-34 | An image compared with itself scores 100 on every count and is reported as similar with the "Similar Images ✓" message. |
| Scoring.CompareIgnoresAlpha | client/src/imageComparison.js:9-34 | Changing the alpha samples of a buffer leaves the result unchanged. |
| Scoring.CompareBlackAndWhite | client/src/imageComparison.js:9-34 | Black against white has pixel and histogram scores of 0 and a score of at most 20, and is reported as different. |
| Scoring.RoundedScoreCanHideVerdict | client/src/imageComparison.js:26-29 | A weighted score in [69.995, 70) is reported as 70.00 and yet as different, because the verdict is taken before rounding. |

## Left out

- `loadImageData` (client/src/imageComparison.js:41-69) is not modelled: it reads the file, decodes the image and resamples it onto the canvas, all through browser APIs. The two canvas buffers are inputs of `CompareImagesLocal` instead. `Grids.IsCanvasGrid` states their 256 x 256 x 4 length.
- The `try`/`catch` re-labelling of loader errors (client/src/imageComparison.js:35-37) and the asynchronous `await`s are not modelled, since loading is not part of the model.
- `client/src/App.js` is not part of this model: it holds the user interface only.
- Floating-point arithmetic is modelled over exact reals. IEEE-754 rounding of intermediate sums and quotients is not captured.
- `Math.sqrt` is a parameter, not a concrete function. The lemmas that need its behaviour require `RealSqrt.IsSqrt`.
- Pixels.ComparePixelData: requires both buffer lengths to be multiples of 4. The source reads past the end of the shorter buffer, and so yields NaN, only when the shorter length is 1 or 2 more than a multiple of 4. The model therefore also excludes some lengths on which the source is well defined, such as 7 and 7, or 8 and 13. Every canvas buffer has a multiple of 4 as its length.
- Sizes.SizeSimilarity: requires the larger size to be positive. For two empty files the source divides 0 by 0 and yields NaN, not 100. The model follows the code and excludes that input.
- `Math.round` is modelled as `floor(x + 0.5)` over reals, which is how it rounds half-way cases. The float error of `x * 100` before that rounding is not captured.
