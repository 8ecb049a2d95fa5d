/**
 * Loss and penalty functions of include/Losses/loss_functions.hpp.
 *
 * Each loss walks `y_true` and `y_pred` with an accumulator and divides the
 * sum by the length. The accumulator loops are methods proved against the
 * specification function `Average`, which folds a per-element term over the
 * two sequences; the properties of the losses are lemmas about that function.
 */
module Losses {
  import opened Wrappers
  import opened Numeric

  /** What a loss can end in besides a value. */
  datatype LossError =
    | SizeMismatch   // std::invalid_argument: y_true and y_pred differ in length
    | ZeroDivision   // empty input: the sum 0 is divided by a size of 0

  // ---------------------------------------------------------------------
  // Per-element terms
  // ---------------------------------------------------------------------

  function SquaredError(t: real, p: real): real
  {
    (p - t) * (p - t)
  }

  function AbsoluteError(t: real, p: real): real
  {
    Abs(p - t)
  }

  /** Quadratic inside `[-delta, delta]`, linear outside. */
  function HuberTerm(delta: real, t: real, p: real): real
  {
    var r := p - t;
    if Abs(r) <= delta then 0.5 * r * r else delta * (Abs(r) - 0.5 * delta)
  }

  function HingeTerm(t: real, p: real): real
  {
    Max(0.0, 1.0 - t * p)
  }

  function SquaredHingeTerm(t: real, p: real): real
  {
    var margin := 1.0 - t * p;
    Max(0.0, margin) * Max(0.0, margin)
  }

  // ---------------------------------------------------------------------
  // Specification: the sum of the first n terms, and the mean
  // ---------------------------------------------------------------------

  /** The accumulator after the first `n` iterations of a loss loop. */
  function SumOf(f: (real, real) -> real, yt: seq<real>, yp: seq<real>, n: nat): real
    requires n <= |yt| && n <= |yp|
  {
    if n == 0 then 0.0 else SumOf(f, yt, yp, n - 1) + f(yt[n - 1], yp[n - 1])
  }

  /** What a loss returns: an error for a length mismatch, else the sum divided by the length. */
  function Average(f: (real, real) -> real, yt: seq<real>, yp: seq<real>): Result<real, LossError>
  {
    if |yt| != |yp| then Failure(SizeMismatch)
    else if |yt| == 0 then Failure(ZeroDivision)
    else Success(SumOf(f, yt, yp, |yt|) / |yt| as real)
  }

  // ---------------------------------------------------------------------
  // The loss loops
  // ---------------------------------------------------------------------

  /** mse: the mean of (y_pred[i] - y_true[i])^2. */
  method Mse(yt: seq<real>, yp: seq<real>) returns (r: Result<real, LossError>)
    ensures r == Average(SquaredError, yt, yp)
  {
    if |yt| != |yp| {
      return Failure(SizeMismatch);
    }
    var sum := 0.0;
    for i := 0 to |yt|
      invariant sum == SumOf(SquaredError, yt, yp, i)
    {
      sum := sum + (yp[i] - yt[i]) * (yp[i] - yt[i]);
    }
    if |yt| == 0 {
      return Failure(ZeroDivision);
    }
    r := Success(sum / |yt| as real);
  }

  /** mae: the mean of |y_pred[i] - y_true[i]|. */
  method Mae(yt: seq<real>, yp: seq<real>) returns (r: Result<real, LossError>)
    ensures r == Average(AbsoluteError, yt, yp)
  {
    if |yt| != |yp| {
      return Failure(SizeMismatch);
    }
    var sum := 0.0;
    for i := 0 to |yt|
      invariant sum == SumOf(AbsoluteError, yt, yp, i)
    {
      sum := sum + Abs(yp[i] - yt[i]);
    }
    if |yt| == 0 {
      return Failure(ZeroDivision);
    }
    r := Success(sum / |yt| as real);
  }

  /** huber, with the source's default `delta = 1`. */
  method Huber(yt: seq<real>, yp: seq<real>, delta: real := 1.0) returns (r: Result<real, LossError>)
    ensures r == Average((t, p) => HuberTerm(delta, t, p), yt, yp)
  {
    if |yt| != |yp| {
      return Failure(SizeMismatch);
    }
    var sum := 0.0;
    for i := 0 to |yt|
      invariant sum == SumOf((t, p) => HuberTerm(delta, t, p), yt, yp, i)
    {
      var res := yp[i] - yt[i];
      if Abs(res) <= delta {
        sum := sum + 0.5 * res * res;
      } else {
        sum := sum + delta * (Abs(res) - 0.5 * delta);
      }
    }
    if |yt| == 0 {
      return Failure(ZeroDivision);
    }
    r := Success(sum / |yt| as real);
  }

  /** hinge_loss: the mean of max(0, 1 - y_true[i] * y_pred[i]). */
  method HingeLoss(yt: seq<real>, yp: seq<real>) returns (r: Result<real, LossError>)
    ensures r == Average(HingeTerm, yt, yp)
  {
    if |yt| != |yp| {
      return Failure(SizeMismatch);
    }
    var sum := 0.0;
    for i := 0 to |yt|
      invariant sum == SumOf(HingeTerm, yt, yp, i)
    {
      sum := sum + Max(0.0, 1.0 - yt[i] * yp[i]);
      assert sum == SumOf(HingeTerm, yt, yp, i) + HingeTerm(yt[i], yp[i]);
    }
    if |yt| == 0 {
      return Failure(ZeroDivision);
    }
    r := Success(sum / |yt| as real);
  }

  /** squared_hinge_loss: the mean of max(0, margin)^2. */
  method SquaredHingeLoss(yt: seq<real>, yp: seq<real>) returns (r: Result<real, LossError>)
    ensures r == Average(SquaredHingeTerm, yt, yp)
  {
    if |yt| != |yp| {
      return Failure(SizeMismatch);
    }
    var sum := 0.0;
    for i := 0 to |yt|
      invariant sum == SumOf(SquaredHingeTerm, yt, yp, i)
    {
      var margin := 1.0 - yt[i] * yp[i];
      sum := sum + Max(0.0, margin) * Max(0.0, margin);
    }
    if |yt| == 0 {
      return Failure(ZeroDivision);
    }
    r := Success(sum / |yt| as real);
  }

  // ---------------------------------------------------------------------
  // Penalties
  // ---------------------------------------------------------------------

  /** The sum of |w| over the first n weights. */
  function L1(w: seq<real>, n: nat): real
    requires n <= |w|
  {
    if n == 0 then 0.0 else L1(w, n - 1) + Abs(w[n - 1])
  }

  /** The sum of w^2 over the first n weights. */
  function L2(w: seq<real>, n: nat): real
    requires n <= |w|
  {
    if n == 0 then 0.0 else L2(w, n - 1) + w[n - 1] * w[n - 1]
  }

  method L1Penalty(weights: seq<real>) returns (sum: real)
    ensures sum == L1(weights, |weights|)
  {
    sum := 0.0;
    for i := 0 to |weights|
      invariant sum == L1(weights, i)
    {
      sum := sum + Abs(weights[i]);
    }
  }

  method L2Penalty(weights: seq<real>) returns (sum: real)
    ensures sum == L2(weights, |weights|)
  {
    sum := 0.0;
    for i := 0 to |weights|
      invariant sum == L2(weights, i)
    {
      sum := sum + weights[i] * weights[i];
    }
  }

  /** elastic_net_penalty: a convex mix of the two penalties, scaled by alpha. */
  function ElasticNetPenalty(weights: seq<real>, alpha: real, l1Ratio: real): (r: real)
    ensures l1Ratio == 1.0 ==> r == alpha * L1(weights, |weights|)
    ensures l1Ratio == 0.0 ==> r == alpha * L2(weights, |weights|)
  {
    alpha * (l1Ratio * L1(weights, |weights|) + (1.0 - l1Ratio) * L2(weights, |weights|))
  }

  // ---------------------------------------------------------------------
  // Lemmas
  // ---------------------------------------------------------------------

  /** A sum of non-negative terms is non-negative, and it is zero exactly when every term is. */
  lemma {:induction false} SumOfNonNegative(f: (real, real) -> real, yt: seq<real>, yp: seq<real>, n: nat)
    requires n <= |yt| && n <= |yp|
    requires forall i :: 0 <= i < n ==> f(yt[i], yp[i]) >= 0.0
    ensures SumOf(f, yt, yp, n) >= 0.0
    ensures SumOf(f, yt, yp, n) == 0.0 <==> forall i :: 0 <= i < n ==> f(yt[i], yp[i]) == 0.0
  {
    if n > 0 {
      SumOfNonNegative(f, yt, yp, n - 1);
    }
  }

  /** Every loss reports the length mismatch, and otherwise fails only on empty input. */
  lemma SizeMismatchIsReported(f: (real, real) -> real, yt: seq<real>, yp: seq<real>)
    ensures Average(f, yt, yp) == Failure(SizeMismatch) <==> |yt| != |yp|
    ensures Average(f, yt, yp) == Failure(ZeroDivision) <==> |yt| == |yp| == 0
  {
  }

  /** MSE is non-negative, and it is zero when the predictions equal the targets. */
  lemma MseNonNegative(yt: seq<real>, yp: seq<real>)
    requires |yt| == |yp| > 0
    ensures Average(SquaredError, yt, yp).Success?
    ensures Average(SquaredError, yt, yp).value >= 0.0
    ensures yt == yp ==> Average(SquaredError, yt, yp).value == 0.0
  {
    forall i | 0 <= i < |yt| ensures SquaredError(yt[i], yp[i]) >= 0.0 {
      SquareNonNegative(yp[i] - yt[i]);
    }
    SumOfNonNegative(SquaredError, yt, yp, |yt|);
    PositiveQuotient(SumOf(SquaredError, yt, yp, |yt|), |yt| as real);
  }

  /** MAE is non-negative and is zero exactly when the predictions equal the targets. */
  lemma MaeZeroIffExact(yt: seq<real>, yp: seq<real>)
    requires |yt| == |yp| > 0
    ensures Average(AbsoluteError, yt, yp).Success?
    ensures Average(AbsoluteError, yt, yp).value >= 0.0
    ensures Average(AbsoluteError, yt, yp).value == 0.0 <==> yt == yp
  {
    SumOfNonNegative(AbsoluteError, yt, yp, |yt|);
    PositiveQuotient(SumOf(AbsoluteError, yt, yp, |yt|), |yt| as real);
    if forall i :: 0 <= i < |yt| ==> yt[i] == yp[i] {
      assert yt == yp;
    }
  }

  /** Each Huber term is non-negative when delta > 0, and the two branches meet at |r| = delta. */
  lemma HuberTermProperties(delta: real, t: real, p: real)
    requires delta > 0.0
    ensures HuberTerm(delta, t, p) >= 0.0
    ensures Abs(p - t) == delta ==> HuberTerm(delta, t, p) == delta * (Abs(p - t) - 0.5 * delta)
  {
    SquareNonNegative(p - t);
    if Abs(p - t) > delta {
      MulNonNegative(delta, Abs(p - t) - 0.5 * delta);
    }
    if Abs(p - t) == delta {
      assert (p - t) * (p - t) == delta * delta;
    }
  }

  /** The Huber loss is non-negative for delta > 0. */
  lemma HuberNonNegative(yt: seq<real>, yp: seq<real>, delta: real)
    requires delta > 0.0
    requires |yt| == |yp| > 0
    ensures Average((t, p) => HuberTerm(delta, t, p), yt, yp).Success?
    ensures Average((t, p) => HuberTerm(delta, t, p), yt, yp).value >= 0.0
  {
    var f := (t, p) => HuberTerm(delta, t, p);
    forall i | 0 <= i < |yt| ensures f(yt[i], yp[i]) >= 0.0 {
      HuberTermProperties(delta, yt[i], yp[i]);
    }
    SumOfNonNegative(f, yt, yp, |yt|);
    PositiveQuotient(SumOf(f, yt, yp, |yt|), |yt| as real);
  }

  /** The hinge loss is non-negative; it is zero exactly when every margin y_true * y_pred is at least 1. */
  lemma HingeZeroIffMargins(yt: seq<real>, yp: seq<real>)
    requires |yt| == |yp| > 0
    ensures Average(HingeTerm, yt, yp).Success?
    ensures Average(HingeTerm, yt, yp).value >= 0.0
    ensures Average(HingeTerm, yt, yp).value == 0.0 <==> forall i :: 0 <= i < |yt| ==> yt[i] * yp[i] >= 1.0
  {
    SumOfNonNegative(HingeTerm, yt, yp, |yt|);
    PositiveQuotient(SumOf(HingeTerm, yt, yp, |yt|), |yt| as real);
  }

  /** Each squared-hinge term is the square of the hinge term, and the loss is non-negative. */
  lemma SquaredHingeIsSquare(yt: seq<real>, yp: seq<real>)
    requires |yt| == |yp| > 0
    ensures forall i :: 0 <= i < |yt| ==> SquaredHingeTerm(yt[i], yp[i]) == HingeTerm(yt[i], yp[i]) * HingeTerm(yt[i], yp[i])
    ensures Average(SquaredHingeTerm, yt, yp).Success?
    ensures Average(SquaredHingeTerm, yt, yp).value >= 0.0
  {
    forall i | 0 <= i < |yt| ensures SquaredHingeTerm(yt[i], yp[i]) >= 0.0 {
      SquareNonNegative(HingeTerm(yt[i], yp[i]));
    }
    SumOfNonNegative(SquaredHingeTerm, yt, yp, |yt|);
    PositiveQuotient(SumOf(SquaredHingeTerm, yt, yp, |yt|), |yt| as real);
  }

  /** With alpha >= 0 and l1_ratio in [0, 1] the elastic-net penalty is non-negative. */
  lemma ElasticNetNonNegative(weights: seq<real>, alpha: real, l1Ratio: real)
    requires alpha >= 0.0 && 0.0 <= l1Ratio <= 1.0
    ensures ElasticNetPenalty(weights, alpha, l1Ratio) >= 0.0
  {
    var l1, l2 := L1(weights, |weights|), L2(weights, |weights|);
    L1NonNegative(weights, |weights|);
    L2NonNegative(weights, |weights|);
    MulNonNegative(l1Ratio, l1);
    MulNonNegative(1.0 - l1Ratio, l2);
    MulNonNegative(alpha, l1Ratio * l1 + (1.0 - l1Ratio) * l2);
  }

  /** The L1 penalty is non-negative and is zero exactly when every weight is zero. */
  lemma {:induction false} L1NonNegative(w: seq<real>, n: nat)
    requires n <= |w|
    ensures L1(w, n) >= 0.0
    ensures L1(w, n) == 0.0 <==> forall i :: 0 <= i < n ==> w[i] == 0.0
  {
    if n > 0 {
      L1NonNegative(w, n - 1);
    }
  }

  /** The L2 penalty is non-negative, and it is zero when every weight is zero. */
  lemma {:induction false} L2NonNegative(w: seq<real>, n: nat)
    requires n <= |w|
    ensures L2(w, n) >= 0.0
    ensures (forall i :: 0 <= i < n ==> w[i] == 0.0) ==> L2(w, n) == 0.0
  {
    if n > 0 {
      L2NonNegative(w, n - 1);
      SquareNonNegative(w[n - 1]);
    }
  }

  // ---------------------------------------------------------------------
  // Arithmetic helpers
  // ---------------------------------------------------------------------

  lemma SquareNonNegative(x: real)
    ensures x * x >= 0.0
  {
    if x < 0.0 {
      assert x * x == (-x) * (-x);
    }
  }

  lemma MulNonNegative(a: real, b: real)
    requires a >= 0.0 && b >= 0.0
    ensures a * b >= 0.0
  {
  }

  lemma PositiveQuotient(s: real, n: real)
    requires n > 0.0 && s >= 0.0
    ensures s / n >= 0.0
    ensures s / n == 0.0 <==> s == 0.0
  {
  }
}
