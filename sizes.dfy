/** The file-size metric (client/src/imageComparison.js, lines 71-77). */
module Sizes {
  import opened Grids

  /** The smaller byte size as a percentage of the larger, capped at 100. The
      quotient is undefined when both sizes are 0, so one must be positive. */
  function SizeSimilarity(size1: nat, size2: nat): (r: real)
    requires 0 < Max(size1, size2)
    ensures 0.0 <= r <= 100.0
    ensures r == 100.0 <==> size1 == size2
    ensures r == 0.0 <==> Min(size1, size2) == 0
  {
    var maxSize := Max(size1, size2);
    var minSize := Min(size1, size2);
    var similarity := minSize as real / maxSize as real * 100.0;
    RatioBounds(minSize as real, maxSize as real);
    MinReal(similarity, 100.0)
  }

  /** A quotient of a non-negative number by a larger one lies in [0, 1], is 1
      exactly when the two are equal and 0 exactly when the first is 0. */
  lemma RatioBounds(m: real, n: real)
    requires 0.0 <= m <= n && 0.0 < n
    ensures 0.0 <= m / n <= 1.0
    ensures m / n == 1.0 <==> m == n
    ensures m / n == 0.0 <==> m == 0.0
  {
    var q := m / n;
    assert q * n == m;
  }

  /** The size metric does not depend on the order of the files. */
  lemma SizeSimilaritySymmetric(size1: nat, size2: nat)
    requires 0 < Max(size1, size2)
    ensures SizeSimilarity(size1, size2) == SizeSimilarity(size2, size1)
  {
  }
}
