/** The histogram metric: a 256-bin histogram of each buffer's red channel,
    normalised to a distribution, and the Bhattacharyya coefficient of the two
    distributions as a percentage (client/src/imageComparison.js, lines 110-141). */
module Histograms {
  import opened Grids
  import opened RealSqrt

  /** One bin per red value. */
  const Bins: nat := 256

  // ---------------------------------------------------------------------------
  // Raw bin counts
  // ---------------------------------------------------------------------------

  /** How many red samples (offsets 0, 4, 8, ...) below offset `n` have value `v`. */
  function RedCount(g: Grid, v: int, n: nat): nat
    requires n <= |g|
  {
    if n == 0 then 0
    else RedCount(g, v, n - 1) + (if (n - 1) % 4 == 0 && g[n - 1] == v then 1 else 0)
  }

  /** The offsets that bin `v` counts, described as a set. */
  ghost function RedOffsets(g: Grid, v: int, n: nat): set<int>
    requires n <= |g|
  {
    set i | 0 <= i < n && i % 4 == 0 && g[i] == v
  }

  /** Bin `v` holds exactly the number of offsets `i` with `i % 4 == 0` and `g[i] == v`. */
  lemma {:induction false} RedCountCountsOffsets(g: Grid, v: int, n: nat)
    requires n <= |g|
    ensures RedCount(g, v, n) == |RedOffsets(g, v, n)|
  {
    if n > 0 {
      RedCountCountsOffsets(g, v, n - 1);
      if (n - 1) % 4 == 0 && g[n - 1] == v {
        assert RedOffsets(g, v, n) == RedOffsets(g, v, n - 1) + {n - 1};
      } else {
        assert RedOffsets(g, v, n) == RedOffsets(g, v, n - 1);
      }
    }
  }

  /** The 256 bins after the samples below offset `n` have been visited. */
  function CountsUpTo(g: Grid, n: nat): (c: seq<nat>)
    requires n <= |g|
    ensures |c| == Bins
  {
    seq(Bins, v requires 0 <= v < Bins => RedCount(g, v, n))
  }

  /** The 256 bins of the whole buffer, before normalisation. */
  function RedCounts(g: Grid): (c: seq<nat>)
    ensures |c| == Bins
  {
    CountsUpTo(g, |g|)
  }

  function Sum(s: seq<int>): int {
    if s == [] then 0 else Sum(s[..|s| - 1]) + s[|s| - 1]
  }

  function RealSum(s: seq<real>): real {
    if s == [] then 0.0 else RealSum(s[..|s| - 1]) + s[|s| - 1]
  }

  lemma RealSumStep(s: seq<real>, i: nat)
    requires i < |s|
    ensures RealSum(s[..i + 1]) == RealSum(s[..i]) + s[i]
  {
    assert s[..i + 1][..i] == s[..i];
  }

  /** Adding one to one element adds one to the sum. */
  lemma {:induction false} SumIncrement(s: seq<int>, k: nat)
    requires k < |s|
    ensures Sum(s[k := s[k] + 1]) == Sum(s) + 1
  {
    var t := s[k := s[k] + 1];
    if k < |s| - 1 {
      assert t[..|t| - 1] == s[..|s| - 1][k := s[k] + 1];
      SumIncrement(s[..|s| - 1], k);
    } else {
      assert t[..|t| - 1] == s[..|s| - 1];
    }
  }

  lemma {:induction false} SumOfZeros(s: seq<int>)
    requires forall i :: 0 <= i < |s| ==> s[i] == 0
    ensures Sum(s) == 0
  {
    if s != [] {
      SumOfZeros(s[..|s| - 1]);
    }
  }

  lemma {:induction false} RealSumOfZeros(s: seq<real>)
    requires forall i :: 0 <= i < |s| ==> s[i] == 0.0
    ensures RealSum(s) == 0.0
  {
    if s != [] {
      RealSumOfZeros(s[..|s| - 1]);
    }
  }

  lemma {:induction false} SumNonNegative(s: seq<nat>)
    ensures 0 <= Sum(s)
  {
    if s != [] {
      SumNonNegative(s[..|s| - 1]);
    }
  }

  /** Visiting the red sample at offset `i` adds one to the bin of its value
      and nothing to any other bin: offsets `i + 1` to `i + 3` are skipped. */
  lemma RedCountStep(g: Grid, v: int, i: nat)
    requires i % 4 == 0 && i < |g|
    ensures RedCount(g, v, Min(i + 4, |g|)) == RedCount(g, v, i) + (if g[i] == v then 1 else 0)
  {
    assert RedCount(g, v, i + 1) == RedCount(g, v, i) + (if g[i] == v then 1 else 0);
    if i + 2 <= |g| {
      assert RedCount(g, v, i + 2) == RedCount(g, v, i + 1);
    }
    if i + 3 <= |g| {
      assert RedCount(g, v, i + 3) == RedCount(g, v, i + 2);
    }
    if i + 4 <= |g| {
      assert RedCount(g, v, i + 4) == RedCount(g, v, i + 3);
    }
  }

  /** One turn of the counting loop, stated on all 256 bins. */
  lemma CountsStep(g: Grid, i: nat)
    requires i % 4 == 0 && i < |g|
    ensures CountsUpTo(g, Min(i + 4, |g|)) == CountsUpTo(g, i)[g[i] := CountsUpTo(g, i)[g[i]] + 1]
  {
    forall v | 0 <= v < Bins
      ensures RedCount(g, v, Min(i + 4, |g|)) == RedCount(g, v, i) + (if g[i] == v then 1 else 0)
    {
      RedCountStep(g, v, i);
    }
  }

  /** After the loop has reached offset `i`, the bins hold one count per red
      sample visited, `i / 4` in all. */
  lemma {:induction false} CountsTotal(g: Grid, i: nat)
    requires i % 4 == 0 && i <= |g| + 3
    ensures Sum(CountsUpTo(g, Min(i, |g|))) == i / 4
  {
    if i == 0 {
      SumOfZeros(CountsUpTo(g, 0));
    } else {
      CountsTotal(g, i - 4);
      CountsStep(g, i - 4);
      SumIncrement(CountsUpTo(g, i - 4), g[i - 4]);
    }
  }

  /** The raw bins of a buffer sum to the number of its red samples, ceil(|g| / 4). */
  lemma RedCountsTotal(g: Grid)
    ensures Sum(RedCounts(g)) == (|g| + 3) / 4
  {
    CountsTotal(g, (|g| + 3) / 4 * 4);
  }

  // ---------------------------------------------------------------------------
  // Normalisation
  // ---------------------------------------------------------------------------

  /** Every count divided by `t`. */
  function Scale(c: seq<nat>, t: real): (h: seq<real>)
    requires t != 0.0
    ensures |h| == |c|
  {
    seq(|c|, i requires 0 <= i < |c| => c[i] as real / t)
  }

  /** Each bin divided by the sum of all bins; all zeros when that sum is 0. */
  function Normalize(c: seq<nat>): (h: seq<real>)
    ensures |h| == |c|
  {
    var total := Sum(c);
    if total > 0 then Scale(c, total as real) else seq(|c|, i => 0.0)
  }

  lemma {:induction false} ScaleSum(c: seq<nat>, t: real)
    requires 0.0 < t
    ensures RealSum(Scale(c, t)) == Sum(c) as real / t
  {
    if c != [] {
      var n := |c| - 1;
      assert Scale(c, t)[..n] == Scale(c[..n], t);
      ScaleSum(c[..n], t);
      assert Sum(c[..n]) as real / t + c[n] as real / t == (Sum(c[..n]) + c[n]) as real / t;
    }
  }

  /** Normalised bins are non-negative. */
  lemma NormalizeNonNegative(c: seq<nat>, i: nat)
    requires i < |c|
    ensures 0.0 <= Normalize(c)[i]
  {
    var total := Sum(c);
    if total > 0 {
      assert Normalize(c) == Scale(c, total as real);
    }
  }

  /** When something was counted, the normalised bins sum to 1. */
  lemma NormalizeSumsToOne(c: seq<nat>)
    requires Sum(c) > 0
    ensures RealSum(Normalize(c)) == 1.0
  {
    var t := Sum(c) as real;
    assert Normalize(c) == Scale(c, t);
    ScaleSum(c, t);
    assert t / t == 1.0;
  }

  /** The normalised red-channel histogram of a buffer. */
  function Histogram(g: Grid): (h: seq<real>)
    ensures |h| == Bins
  {
    Normalize(RedCounts(g))
  }

  /** A histogram has 256 non-negative bins that sum to 1 for a non-empty
      buffer and are all zero for an empty one. */
  lemma HistogramIsDistribution(g: Grid)
    ensures |Histogram(g)| == Bins
    ensures forall v :: 0 <= v < Bins ==> 0.0 <= Histogram(g)[v]
    ensures |g| > 0 ==> RealSum(Histogram(g)) == 1.0
    ensures |g| == 0 ==> forall v :: 0 <= v < Bins ==> Histogram(g)[v] == 0.0
    ensures |g| == 0 ==> RealSum(Histogram(g)) == 0.0
  {
    var c := RedCounts(g);
    RedCountsTotal(g);
    SumNonNegative(c);
    forall v | 0 <= v < Bins
      ensures 0.0 <= Histogram(g)[v]
    {
      NormalizeNonNegative(c, v);
    }
    if |g| > 0 {
      NormalizeSumsToOne(c);
    } else {
      RealSumOfZeros(Histogram(g));
    }
  }

  /** Counts the red samples into 256 bins in place, then normalises them. */
  method BuildHistogram(g: Grid) returns (histogram: seq<real>)
    ensures histogram == Histogram(g)
  {
    var counts := new nat[Bins](_ => 0);
    assert counts[..] == CountsUpTo(g, 0);
    var i := 0;
    while i < |g|
      invariant i % 4 == 0 && i <= |g| + 3
      invariant counts[..] == CountsUpTo(g, Min(i, |g|))
    {
      CountsStep(g, i);
      var pixelValue := g[i];
      counts[pixelValue] := counts[pixelValue] + 1;
      i := i + 4;
    }
    histogram := Normalize(counts[..]);
  }

  // ---------------------------------------------------------------------------
  // Bhattacharyya coefficient
  // ---------------------------------------------------------------------------

  /** The sum of `sqrt(p[b] * q[b])` over the bins `b` below `n`. */
  function Bhattacharyya(sqrt: real -> real, p: seq<real>, q: seq<real>, n: nat): real
    requires n <= |p| && n <= |q|
  {
    if n == 0 then 0.0 else Bhattacharyya(sqrt, p, q, n - 1) + sqrt(p[n - 1] * q[n - 1])
  }

  /** The histogram metric: the coefficient of the two histograms as a
      percentage, clamped below at 0. */
  function HistogramSimilarity(sqrt: real -> real, g1: Grid, g2: Grid): real {
    MaxReal(0.0, Bhattacharyya(sqrt, Histogram(g1), Histogram(g2), Bins) * 100.0)
  }

  method CompareHistograms(sqrt: real -> real, g1: Grid, g2: Grid) returns (similarity: real)
    ensures similarity == HistogramSimilarity(sqrt, g1, g2)
  {
    var hist1 := BuildHistogram(g1);
    var hist2 := BuildHistogram(g2);
    var bhattacharyya := 0.0;
    for i := 0 to Bins
      invariant bhattacharyya == Bhattacharyya(sqrt, hist1, hist2, i)
    {
      BhattacharyyaStep(sqrt, hist1, hist2, i);
      bhattacharyya := bhattacharyya + sqrt(hist1[i] * hist2[i]);
    }
    similarity := MaxReal(0.0, bhattacharyya * 100.0);
  }

  lemma BhattacharyyaStep(sqrt: real -> real, p: seq<real>, q: seq<real>, i: nat)
    requires i < |p| && i < |q|
    ensures Bhattacharyya(sqrt, p, q, i + 1) == Bhattacharyya(sqrt, p, q, i) + sqrt(p[i] * q[i])
  {
  }

  lemma {:induction false} BhattacharyyaSymmetric(sqrt: real -> real, p: seq<real>, q: seq<real>, n: nat)
    requires n <= |p| && n <= |q|
    ensures Bhattacharyya(sqrt, p, q, n) == Bhattacharyya(sqrt, q, p, n)
  {
    if n > 0 {
      BhattacharyyaSymmetric(sqrt, p, q, n - 1);
      assert p[n - 1] * q[n - 1] == q[n - 1] * p[n - 1];
    }
  }

  /** Over non-negative bins the coefficient is non-negative and at most the
      mean of the two bin totals. */
  lemma {:induction false} BhattacharyyaBound(sqrt: real -> real, p: seq<real>, q: seq<real>, n: nat)
    requires IsSqrt(sqrt)
    requires n <= |p| && n <= |q|
    requires forall i :: 0 <= i < n ==> 0.0 <= p[i] && 0.0 <= q[i]
    ensures 0.0 <= Bhattacharyya(sqrt, p, q, n) <= (RealSum(p[..n]) + RealSum(q[..n])) / 2.0
  {
    if n > 0 {
      var a, b := p[n - 1], q[n - 1];
      BhattacharyyaBound(sqrt, p, q, n - 1);
      BhattacharyyaStep(sqrt, p, q, n - 1);
      SqrtOfProductBound(sqrt, a, b);
      assert a * b == p[n - 1] * q[n - 1];
      RealSumStep(p, n - 1);
      RealSumStep(q, n - 1);
    }
  }

  /** The coefficient of a non-negative histogram with itself is the total of its bins. */
  lemma {:induction false} BhattacharyyaSelf(sqrt: real -> real, p: seq<real>, n: nat)
    requires IsSqrt(sqrt)
    requires n <= |p|
    requires forall i :: 0 <= i < n ==> 0.0 <= p[i]
    ensures Bhattacharyya(sqrt, p, p, n) == RealSum(p[..n])
  {
    if n > 0 {
      var x := p[n - 1];
      BhattacharyyaSelf(sqrt, p, n - 1);
      BhattacharyyaStep(sqrt, p, p, n - 1);
      SqrtOfSquare(sqrt, x);
      assert x * x == p[n - 1] * p[n - 1];
      RealSumStep(p, n - 1);
    }
  }

  /** Histograms that never share a non-empty bin have coefficient 0. */
  lemma {:induction false} BhattacharyyaDisjoint(sqrt: real -> real, p: seq<real>, q: seq<real>, n: nat)
    requires IsSqrt(sqrt)
    requires n <= |p| && n <= |q|
    requires forall i :: 0 <= i < n ==> p[i] == 0.0 || q[i] == 0.0
    ensures Bhattacharyya(sqrt, p, q, n) == 0.0
  {
    if n > 0 {
      BhattacharyyaDisjoint(sqrt, p, q, n - 1);
      assert p[n - 1] * q[n - 1] == 0.0;
      SqrtZero(sqrt);
    }
  }

  /** The histogram metric does not depend on the order of the buffers. */
  lemma HistogramSimilaritySymmetric(sqrt: real -> real, g1: Grid, g2: Grid)
    ensures HistogramSimilarity(sqrt, g1, g2) == HistogramSimilarity(sqrt, g2, g1)
  {
    BhattacharyyaSymmetric(sqrt, Histogram(g1), Histogram(g2), Bins);
  }

  /** The histogram metric lies in [0, 100], and the clamp at 0 never applies. */
  lemma HistogramSimilarityRange(sqrt: real -> real, g1: Grid, g2: Grid)
    requires IsSqrt(sqrt)
    ensures HistogramSimilarity(sqrt, g1, g2) == Bhattacharyya(sqrt, Histogram(g1), Histogram(g2), Bins) * 100.0
    ensures 0.0 <= HistogramSimilarity(sqrt, g1, g2) <= 100.0
  {
    var h1, h2 := Histogram(g1), Histogram(g2);
    HistogramIsDistribution(g1);
    HistogramIsDistribution(g2);
    BhattacharyyaBound(sqrt, h1, h2, Bins);
    assert h1[..Bins] == h1 && h2[..Bins] == h2;
  }

  /** A non-empty buffer compared with itself scores 100. */
  lemma HistogramSimilaritySelf(sqrt: real -> real, g: Grid)
    requires IsSqrt(sqrt)
    requires |g| > 0
    ensures HistogramSimilarity(sqrt, g, g) == 100.0
  {
    var h := Histogram(g);
    HistogramIsDistribution(g);
    BhattacharyyaSelf(sqrt, h, Bins);
    assert h[..Bins] == h;
  }

  /** The red samples of `g` are all `r`. */
  ghost predicate AllRed(g: Grid, r: Byte) {
    forall i :: 0 <= i < |g| && i % 4 == 0 ==> g[i] == r
  }

  /** If every red sample is `r`, no other bin counts anything. */
  lemma {:induction false} AllRedCounts(g: Grid, r: Byte, v: int, n: nat)
    requires AllRed(g, r) && v != r
    requires n <= |g|
    ensures RedCount(g, v, n) == 0
  {
    if n > 0 {
      AllRedCounts(g, r, v, n - 1);
    }
  }

  /** Buffers whose red samples are one value each, two different values,
      score 0: their histograms do not overlap. */
  lemma HistogramSimilarityDisjoint(sqrt: real -> real, g1: Grid, g2: Grid, r1: Byte, r2: Byte)
    requires IsSqrt(sqrt)
    requires AllRed(g1, r1) && AllRed(g2, r2) && r1 != r2
    ensures HistogramSimilarity(sqrt, g1, g2) == 0.0
  {
    var h1, h2 := Histogram(g1), Histogram(g2);
    forall v | 0 <= v < Bins
      ensures h1[v] == 0.0 || h2[v] == 0.0
    {
      if v != r1 {
        AllRedCounts(g1, r1, v, |g1|);
      } else {
        AllRedCounts(g2, r2, v, |g2|);
      }
    }
    BhattacharyyaDisjoint(sqrt, h1, h2, Bins);
  }

  /** The bins read only the red sample of each pixel: buffers of the same
      length that agree on every red sample have the same counts. */
  lemma {:induction false} RedCountIgnoresOtherChannels(g: Grid, h: Grid, v: int, n: nat)
    requires |g| == |h| && forall i :: 0 <= i < |g| && i % 4 == 0 ==> g[i] == h[i]
    requires n <= |g|
    ensures RedCount(g, v, n) == RedCount(h, v, n)
  {
    if n > 0 {
      RedCountIgnoresOtherChannels(g, h, v, n - 1);
    }
  }

  /** The histogram of a buffer does not depend on its alpha samples. */
  lemma HistogramIgnoresAlpha(g: Grid, h: Grid)
    requires SameColours(g, h)
    ensures Histogram(g) == Histogram(h)
  {
    forall v | 0 <= v < Bins
      ensures RedCounts(g)[v] == RedCounts(h)[v]
    {
      RedCountIgnoresOtherChannels(g, h, v, |g|);
    }
    assert RedCounts(g) == RedCounts(h);
  }
}
