/**
 * The Euclidean distance functor of Clustering/distance.h.
 *
 * `Euclidean_Distance::operator()` returns the sentinel -1.0 for vectors of
 * different lengths and otherwise the square root of the accumulated sum of
 * squared coordinate differences. The square root is the library's `sqrt`;
 * here it is a parameter, and the properties that need it say what they
 * assume of it.
 */
module Distance {

  /** The sum of (x[i] - y[i])^2 over the first n coordinates. */
  function SumSquaredDiff(x: seq<real>, y: seq<real>, n: nat): real
    requires n <= |x| && n <= |y|
  {
    if n == 0 then 0.0 else SumSquaredDiff(x, y, n - 1) + (x[n - 1] - y[n - 1]) * (x[n - 1] - y[n - 1])
  }

  /** What the functor returns for x and y. */
  function EuclideanValue(sqrt: real -> real, x: seq<real>, y: seq<real>): real
  {
    if |x| != |y| then -1.0 else sqrt(SumSquaredDiff(x, y, |x|))
  }

  /** The square root never returns a negative number for a non-negative argument. */
  ghost predicate NonNegativeRoot(sqrt: real -> real)
  {
    forall s :: s >= 0.0 ==> sqrt(s) >= 0.0
  }

  /** `Euclidean_Distance`: a named distance with no mutable state. */
  class EuclideanDistance {
    const name: string

    constructor ()
      ensures name == "Euclidean Distance"
    {
      name := "Euclidean Distance";
    }

    /** operator(): the sentinel on a length mismatch, else the root of the accumulated sum. */
    method Apply(sqrt: real -> real, x: seq<real>, y: seq<real>) returns (d: real)
      ensures d == EuclideanValue(sqrt, x, y)
      ensures |x| != |y| ==> d == -1.0
      ensures |x| == |y| ==> d == sqrt(SumSquaredDiff(x, y, |x|))
    {
      if |x| != |y| {
        return -1.0;
      }
      var distanceSum := 0.0;
      for i := 0 to |x|
        invariant distanceSum == SumSquaredDiff(x, y, i)
      {
        distanceSum := distanceSum + (x[i] - y[i]) * (x[i] - y[i]);
      }
      d := sqrt(distanceSum);
    }
  }

  // ---------------------------------------------------------------------
  // Lemmas
  // ---------------------------------------------------------------------

  lemma SquareNonNegative(v: real)
    ensures v * v >= 0.0
  {
    if v < 0.0 {
      assert v * v == (-v) * (-v);
    }
  }

  /** The accumulated sum is never negative. */
  lemma {:induction false} SumSquaredDiffNonNegative(x: seq<real>, y: seq<real>, n: nat)
    requires n <= |x| && n <= |y|
    ensures SumSquaredDiff(x, y, n) >= 0.0
  {
    if n > 0 {
      SumSquaredDiffNonNegative(x, y, n - 1);
      SquareNonNegative(x[n - 1] - y[n - 1]);
    }
  }

  /** The accumulated sum does not depend on the order of the two vectors. */
  lemma {:induction false} SumSquaredDiffSymmetric(x: seq<real>, y: seq<real>, n: nat)
    requires n <= |x| && n <= |y|
    ensures SumSquaredDiff(x, y, n) == SumSquaredDiff(y, x, n)
  {
    if n > 0 {
      SumSquaredDiffSymmetric(x, y, n - 1);
      var u, v := x[n - 1], y[n - 1];
      assert (u - v) * (u - v) == (v - u) * (v - u);
    }
  }

  /** A vector has accumulated sum 0 against itself. */
  lemma {:induction false} SumSquaredDiffSelf(x: seq<real>, n: nat)
    requires n <= |x|
    ensures SumSquaredDiff(x, x, n) == 0.0
  {
    if n > 0 {
      SumSquaredDiffSelf(x, n - 1);
    }
  }

  /** For equal lengths the distance is non-negative, given a non-negative square root. */
  lemma EuclideanNonNegative(sqrt: real -> real, x: seq<real>, y: seq<real>)
    requires NonNegativeRoot(sqrt)
    requires |x| == |y|
    ensures EuclideanValue(sqrt, x, y) >= 0.0
  {
    SumSquaredDiffNonNegative(x, y, |x|);
  }

  /** The distance is symmetric, including the sentinel case. */
  lemma EuclideanSymmetric(sqrt: real -> real, x: seq<real>, y: seq<real>)
    ensures EuclideanValue(sqrt, x, y) == EuclideanValue(sqrt, y, x)
  {
    if |x| == |y| {
      SumSquaredDiffSymmetric(x, y, |x|);
    }
  }

  /** A vector is at distance sqrt(0) from itself, which is 0 when the root of 0 is 0. */
  lemma EuclideanSelf(sqrt: real -> real, x: seq<real>)
    ensures EuclideanValue(sqrt, x, x) == sqrt(0.0)
  {
    SumSquaredDiffSelf(x, |x|);
  }

  /** Lengths that differ always give the sentinel, which a real distance never equals. */
  lemma MismatchIsSentinel(sqrt: real -> real, x: seq<real>, y: seq<real>)
    requires NonNegativeRoot(sqrt)
    ensures EuclideanValue(sqrt, x, y) == -1.0 <==> |x| != |y|
  {
    if |x| == |y| {
      EuclideanNonNegative(sqrt, x, y);
    }
  }

  /** The driver of Clustering/main.cpp: (0, 0) and (1, 1) are sqrt(2) apart. */
  lemma UsageExampleDistance(sqrt: real -> real)
    ensures EuclideanValue(sqrt, [0.0, 0.0], [1.0, 1.0]) == sqrt(2.0)
  {
    assert SumSquaredDiff([0.0, 0.0], [1.0, 1.0], 1) == 1.0;
  }
}
