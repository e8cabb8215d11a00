/** The square root the metrics call (`Math.sqrt`) is not definable in Dafny's
    `real` arithmetic, so every member that takes a square root receives it as
    a parameter. The lemmas that need its behaviour require `IsSqrt`, which says
    what the mathematical square root is on the non-negative reals. */
module RealSqrt {

  /** `sqrt` maps every non-negative real to the non-negative real whose square it is. */
  ghost predicate IsSqrt(sqrt: real -> real) {
    forall x: real :: 0.0 <= x ==> 0.0 <= sqrt(x) && sqrt(x) * sqrt(x) == x
  }

  /** Taking the root of a square gives back the non-negative number squared. */
  lemma SqrtOfSquare(sqrt: real -> real, x: real)
    requires IsSqrt(sqrt)
    requires 0.0 <= x
    ensures sqrt(x * x) == x
  {
    var s := sqrt(x * x);
    assert 0.0 <= s && s * s == x * x;
    assert (s - x) * (s + x) == 0.0;
    ZeroProduct(s - x, s + x);
  }

  /** The root of zero is zero. */
  lemma SqrtZero(sqrt: real -> real)
    requires IsSqrt(sqrt)
    ensures sqrt(0.0) == 0.0
  {
    SqrtOfSquare(sqrt, 0.0);
  }

  /** A number larger than `c * c` has a root larger than `c`. */
  lemma SqrtAbove(sqrt: real -> real, x: real, c: real)
    requires IsSqrt(sqrt)
    requires 0.0 <= c && c * c < x
    ensures c < sqrt(x)
  {
    var s := sqrt(x);
    assert 0.0 <= s && s * s == x;
  }

  /** The geometric mean is at most the arithmetic mean: the root of `p * q` is
      at most `(p + q) / 2`. */
  lemma SqrtOfProductBound(sqrt: real -> real, p: real, q: real)
    requires IsSqrt(sqrt)
    requires 0.0 <= p && 0.0 <= q
    ensures 0.0 <= sqrt(p * q) <= (p + q) / 2.0
  {
    var s := sqrt(p * q);
    var m := (p + q) / 2.0;
    assert 0.0 <= s && s * s == p * q;
    SquareNonNegative(p - q);
    assert m * m - s * s == (p - q) * (p - q) / 4.0;
    RootMonotone(s, m);
  }

  /** Of two non-negative numbers, the one with the smaller square is the smaller. */
  lemma RootMonotone(a: real, b: real)
    requires 0.0 <= a && 0.0 <= b && a * a <= b * b
    ensures a <= b
  {
    if b < a {
      assert (a - b) * (a + b) == a * a - b * b;
      MulPositive(a - b, a + b);
    }
  }

  /** A product is zero only when a factor is. */
  lemma ZeroProduct(a: real, b: real)
    requires a * b == 0.0
    ensures a == 0.0 || b == 0.0
  {
    if a != 0.0 {
      assert b == (a * b) / a;
    }
  }

  lemma SquareNonNegative(d: real)
    ensures 0.0 <= d * d
  {
    if d < 0.0 {
      assert d * d == (-d) * (-d);
      MulMonotone(0.0, -d, -d);
    } else {
      MulMonotone(0.0, d, d);
    }
  }

  lemma MulPositive(a: real, b: real)
    requires 0.0 < a && 0.0 < b
    ensures 0.0 < a * b
  {
    MulMonotone(0.0, a, b);
    if a * b == 0.0 {
      ZeroProduct(a, b);
    }
  }

  lemma MulMonotone(a: real, b: real, c: real)
    requires a <= b && 0.0 <= c
    ensures a * c <= b * c
  {
    assert b * c - a * c == (b - a) * c;
  }
}
