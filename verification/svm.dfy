/**
 * The simplified SMO trainer of src/Classification/SVM.cpp (fields and
 * defaults in include/Classification/SVM.h).
 *
 * The trainer is a class whose `alphas`, `weights`, `bias` and
 * `supportVectors` fields are rewritten by `fit`/`optimize`. One pass of
 * `optimize` visits every index i; when i violates the KKT test a partner
 * j != i is drawn at random, the box [L, H] for alpha_j is computed, alpha_j
 * takes a clipped Newton step, alpha_i compensates and the bias is reset.
 * That pair update is the specification function `PairUpdate`; the method
 * `TakeStep` performs it on the fields and is proved against it, and the
 * algebra of the update (the box, conservation of the sum of y * alpha, the
 * drift of the epsilon skip) is proved as lemmas about `PairUpdate`.
 *
 * The kernel (linear, polynomial or Gaussian, with degree, gamma and coef0)
 * is a given function on rows. `rand() % m` becomes a nondeterministic
 * choice of j != i.
 */
module Svm {
  import opened Numeric

  type Row = seq<real>

  // ---------------------------------------------------------------------
  // Specification of decision_function
  // ---------------------------------------------------------------------

  /** The accumulator of decision_function after the first n support vectors. */
  function DecisionSum(kernel: (Row, Row) -> real, sv: seq<Row>, alphas: seq<real>, weights: seq<real>, x: Row, n: nat): real
    requires n <= |sv| && n <= |alphas| && n <= |weights|
  {
    if n == 0 then 0.0
    else DecisionSum(kernel, sv, alphas, weights, x, n - 1) + alphas[n - 1] * weights[n - 1] * kernel(sv[n - 1], x)
  }

  /** decision_function(x): the kernel-weighted sum over the support vectors, plus the bias. */
  function DecisionValue(kernel: (Row, Row) -> real, sv: seq<Row>, alphas: seq<real>, weights: seq<real>, bias: real, x: Row): real
    requires |sv| <= |alphas| && |sv| <= |weights|
  {
    DecisionSum(kernel, sv, alphas, weights, x, |sv|) + bias
  }

  /** predict(x): +1 on the non-negative side of the decision boundary, -1 otherwise. */
  function Label(decision: real): real
  {
    if decision >= 0.0 then 1.0 else -1.0
  }

  // ---------------------------------------------------------------------
  // Specification of the pair update inside optimize
  // ---------------------------------------------------------------------

  /** The KKT test of optimize: index i can still be improved. */
  function KktViolated(yi: int, ei: real, ai: real, C: real, tolerance: real): bool
  {
    (yi as real * ei < -tolerance && ai < C) || (yi as real * ei > tolerance && ai > 0.0)
  }

  /** The bounds [L, H] alpha_j must stay in. */
  function Bounds(C: real, yi: int, yj: int, ai: real, aj: real): (real, real)
  {
    if yi != yj then (Max(0.0, aj - ai), Min(C, C + aj - ai))
    else (Max(0.0, ai + aj - C), Min(C, ai + aj))
  }

  /** std::clamp(v, lo, hi), as libstdc++ computes it; it is meaningful only for lo <= hi. */
  function Clamp(v: real, lo: real, hi: real): (r: real)
    ensures lo <= hi ==> lo <= r <= hi
    ensures lo <= v <= hi ==> r == v
  {
    if v < lo then lo else if hi < v then hi else v
  }

  /** How the pair update for (i, j) ended: three ways to skip, one to commit. */
  datatype StepKind =
    | DegenerateBounds   // L == H: continue
    | NonNegativeEta     // eta >= 0: continue
    | NegligibleMove     // |alpha_j' - alpha_j| < epsilon: continue, with alpha_j' already stored
    | Committed          // alpha_i, alpha_j and the bias updated; alpha_changed is incremented

  datatype PairResult = PairResult(kind: StepKind, alphas: seq<real>, bias: real)

  /** The new alpha_j before the epsilon test: the Newton step, clipped to [L, H]. */
  function NewAlphaJ(L: real, H: real, yj: int, aj: real, ei: real, ej: real, eta: real): real
    requires eta != 0.0
  {
    Clamp(aj - NewtonStep(yj, ei, ej, eta), L, H)
  }

  /** The unclipped decrease of alpha_j: y_j (E_i - E_j) / eta. */
  function NewtonStep(yj: int, ei: real, ej: real, eta: real): real
    requires eta != 0.0
  {
    (yj as real * (ei - ej)) / eta
  }

  /** The change of alpha_i that compensates a change d = alpha_j_old - alpha_j_new: y_i y_j d. */
  function Compensation(yi: int, yj: int, d: real): real
  {
    (yi as real * yj as real) * d
  }

  /** The two candidate biases b1 and b2. */
  function CandidateBiases(bias: real, yi: int, yj: int, dai: real, daj: real, ei: real, ej: real,
                           kii: real, kij: real, kjj: real): (real, real)
  {
    (bias - ei - yi as real * dai * kii - yj as real * daj * kij,
     bias - ej - yi as real * dai * kij - yj as real * daj * kjj)
  }

  /** The bias rule: b1 if alpha_i is strictly inside (0, C), else b2 if alpha_j is, else their mean. */
  function ChooseBias(C: real, ai: real, aj: real, b1: real, b2: real): real
  {
    if 0.0 < ai && ai < C then b1
    else if 0.0 < aj && aj < C then b2
    else (b1 + b2) / 2.0
  }

  /**
   * One pair update of optimize, for a violating index i and its partner j,
   * with errors ei and ej and the kernel values K(i,i), K(i,j), K(j,j).
   */
  function PairUpdate(C: real, epsilon: real, yi: int, yj: int, alphas: seq<real>, bias: real,
                      i: nat, j: nat, ei: real, ej: real, kii: real, kij: real, kjj: real): PairResult
    requires i < |alphas| && j < |alphas| && i != j
  {
    var (L, H) := Bounds(C, yi, yj, alphas[i], alphas[j]);
    if L == H then PairResult(DegenerateBounds, alphas, bias)
    else
      var eta := 2.0 * kij - kii - kjj;
      if eta >= 0.0 then PairResult(NonNegativeEta, alphas, bias)
      else
        var ajOld, aiOld := alphas[j], alphas[i];
        var ajNew := NewAlphaJ(L, H, yj, ajOld, ei, ej, eta);
        if Abs(ajNew - ajOld) < epsilon then PairResult(NegligibleMove, alphas[j := ajNew], bias)
        else
          var aiNew := aiOld + Compensation(yi, yj, ajOld - ajNew);
          var (b1, b2) := CandidateBiases(bias, yi, yj, aiNew - aiOld, ajNew - ajOld, ei, ej, kii, kij, kjj);
          PairResult(Committed, alphas[j := ajNew][i := aiNew], ChooseBias(C, aiNew, ajNew, b1, b2))
  }

  // ---------------------------------------------------------------------
  // Invariants of the training state
  // ---------------------------------------------------------------------

  /** Every alpha lies in the box [0, C]. */
  ghost predicate InBox(alphas: seq<real>, C: real)
  {
    forall k :: 0 <= k < |alphas| ==> 0.0 <= alphas[k] <= C
  }

  /** Labels in {-1, +1}, which the code assumes but does not check. */
  ghost predicate BinaryLabels(y: seq<int>)
  {
    forall k :: 0 <= k < |y| ==> y[k] == 1 || y[k] == -1
  }

  function Zeros(m: nat): (z: seq<real>)
    ensures |z| == m && forall k :: 0 <= k < m ==> z[k] == 0.0
  {
    seq(m, _ => 0.0)
  }

  /** The sum of y[k] * alphas[k] over the first n indices. */
  function WeightedSum(y: seq<int>, alphas: seq<real>, n: nat): real
    requires n <= |y| && n <= |alphas|
  {
    if n == 0 then 0.0 else WeightedSum(y, alphas, n - 1) + y[n - 1] as real * alphas[n - 1]
  }

  /** y_i alpha_i + y_j alpha_j, the part of the sum of y * alpha a pair update touches. */
  function PairSum(yi: int, yj: int, ai: real, aj: real): real
  {
    yi as real * ai + yj as real * aj
  }

  /** How optimize ended. */
  datatype Outcome =
    | Converged            // `iteration` reached max_iterations
    | PartnerSearchHangs   // m == 1 and the only index violates the KKT test: `while (j == i)` never ends
    | OutOfFuel            // the model's bound on the number of passes ran out first

  /** What a single visit of index i in a pass did. */
  datatype Visit =
    | Satisfied                 // the KKT test holds for i
    | NoPartner                 // no j != i exists
    | Paired(j: nat, kind: StepKind)

  // ---------------------------------------------------------------------
  // The trainer
  // ---------------------------------------------------------------------

  class Trainer {
    const C: real                  // regularization_param
    const kernel: (Row, Row) -> real
    const maxIterations: int
    const tolerance: real
    const epsilon: real

    var supportVectors: seq<Row>
    var alphas: seq<real>
    var weights: seq<real>
    var bias: real

    /** The sizes decision_function indexes with agree. */
    ghost predicate Valid()
      reads this
    {
      |alphas| == |supportVectors| && |weights| == |supportVectors|
    }

    /** SVM(...): the parameters, an empty model and bias 0; the defaults are those of SVM.h. */
    constructor (C: real, kernel: (Row, Row) -> real, maxIterations: int := 1000,
                 tolerance: real := 0.001, epsilon: real := 0.00001)
      ensures this.C == C && this.kernel == kernel && this.maxIterations == maxIterations
      ensures this.tolerance == tolerance && this.epsilon == epsilon
      ensures supportVectors == [] && alphas == [] && weights == [] && bias == 0.0
      ensures Valid()
    {
      this.C := C;
      this.kernel := kernel;
      this.maxIterations := maxIterations;
      this.tolerance := tolerance;
      this.epsilon := epsilon;
      supportVectors, alphas, weights, bias := [], [], [], 0.0;
    }

    /** decision_function(x), proved against DecisionValue. */
    method DecisionFunction(x: Row) returns (r: real)
      requires Valid()
      ensures r == DecisionValue(kernel, supportVectors, alphas, weights, bias, x)
    {
      r := 0.0;
      for i := 0 to |supportVectors|
        invariant r == DecisionSum(kernel, supportVectors, alphas, weights, x, i)
      {
        r := r + alphas[i] * weights[i] * kernel(supportVectors[i], x);
      }
      r := r + bias;
    }

    /** predict(x): 1.0 exactly when decision_function(x) >= 0, else -1.0. */
    method Predict(x: Row) returns (prediction: real)
      requires Valid()
      ensures prediction == Label(DecisionValue(kernel, supportVectors, alphas, weights, bias, x))
      ensures prediction == 1.0 <==> DecisionValue(kernel, supportVectors, alphas, weights, bias, x) >= 0.0
      ensures prediction == 1.0 || prediction == -1.0
    {
      var d := DecisionFunction(x);
      prediction := if d >= 0.0 then 1.0 else -1.0;
    }

    /** predict(X): one prediction per row, each the single-row prediction. */
    method PredictAll(X: seq<Row>) returns (predictions: seq<int>)
      requires Valid()
      ensures |predictions| == |X|
      ensures forall k :: 0 <= k < |X| ==>
        predictions[k] as real == Label(DecisionValue(kernel, supportVectors, alphas, weights, bias, X[k]))
    {
      predictions := [];
      for i := 0 to |X|
        invariant |predictions| == i
        invariant forall k :: 0 <= k < i ==>
          predictions[k] as real == Label(DecisionValue(kernel, supportVectors, alphas, weights, bias, X[k]))
      {
        var prediction := Predict(X[i]);
        predictions := predictions + [if prediction == 1.0 then 1 else -1];
      }
    }

    /**
     * The body of the inner loop of optimize for index i: the KKT test, the
     * choice of a partner, and the pair update, performed on the fields.
     */
    method TakeStep(X: seq<Row>, y: seq<int>, i: nat) returns (visit: Visit)
      requires Valid() && supportVectors == X && i < |X| <= |y|
      modifies this
      ensures Valid() && supportVectors == X && weights == old(weights)
      ensures var ei := DecisionValue(kernel, X, old(alphas), old(weights), old(bias), X[i]) - y[i] as real;
        match visit
        case Satisfied =>
          !KktViolated(y[i], ei, old(alphas)[i], C, tolerance) && alphas == old(alphas) && bias == old(bias)
        case NoPartner =>
          KktViolated(y[i], ei, old(alphas)[i], C, tolerance) && |X| == 1 &&
          alphas == old(alphas) && bias == old(bias)
        case Paired(j, kind) =>
          KktViolated(y[i], ei, old(alphas)[i], C, tolerance) && j < |X| && j != i &&
          var ej := DecisionValue(kernel, X, old(alphas), old(weights), old(bias), X[j]) - y[j] as real;
          var r := PairUpdate(C, epsilon, y[i], y[j], old(alphas), old(bias), i, j, ei, ej,
                              kernel(X[i], X[i]), kernel(X[i], X[j]), kernel(X[j], X[j]));
          kind == r.kind && alphas == r.alphas && bias == r.bias
    {
      var m := |X|;
      var di := DecisionFunction(X[i]);
      var ei := di - y[i] as real;
      if !KktViolated(y[i], ei, alphas[i], C, tolerance) {
        return Satisfied;
      }
      if m == 1 {
        return NoPartner;
      }
      assert 0 <= (if i == 0 then 1 else 0) < m;
      var j :| 0 <= j < m && j != i;
      var dj := DecisionFunction(X[j]);
      var ej := dj - y[j] as real;
      var kind := ApplyPair(y[i], y[j], i, j, ei, ej, kernel(X[i], X[i]), kernel(X[i], X[j]), kernel(X[j], X[j]));
      return Paired(j, kind);
    }

    /**
     * The pair update for a violating i and its partner j, performed on the
     * fields and proved against PairUpdate: the bounds, the two skips, the
     * clipped step of alpha_j (stored before the epsilon test, as the code
     * does), the compensation of alpha_i and the new bias.
     */
    method ApplyPair(yi: int, yj: int, i: nat, j: nat, ei: real, ej: real, kii: real, kij: real, kjj: real)
      returns (kind: StepKind)
      requires i < |alphas| && j < |alphas| && i != j
      modifies this
      ensures supportVectors == old(supportVectors) && weights == old(weights)
      ensures var r := PairUpdate(C, epsilon, yi, yj, old(alphas), old(bias), i, j, ei, ej, kii, kij, kjj);
        kind == r.kind && alphas == r.alphas && bias == r.bias
    {
      var ajOld, aiOld := alphas[j], alphas[i];
      var L, H;
      if yi != yj {
        L, H := Max(0.0, alphas[j] - alphas[i]), Min(C, C + alphas[j] - alphas[i]);
      } else {
        L, H := Max(0.0, alphas[i] + alphas[j] - C), Min(C, alphas[i] + alphas[j]);
      }
      assert (L, H) == Bounds(C, yi, yj, aiOld, ajOld);
      if L == H {
        return DegenerateBounds;
      }
      var eta := 2.0 * kij - kii - kjj;
      if eta >= 0.0 {
        return NonNegativeEta;
      }
      alphas := alphas[j := alphas[j] - NewtonStep(yj, ei, ej, eta)];
      alphas := alphas[j := Clamp(alphas[j], L, H)];
      var ajNew := alphas[j];
      assert ajNew == NewAlphaJ(L, H, yj, ajOld, ei, ej, eta);
      assert alphas == old(alphas)[j := ajNew];
      if Abs(ajNew - ajOld) < epsilon {
        return NegligibleMove;
      }
      var aiNew := aiOld + Compensation(yi, yj, ajOld - ajNew);
      alphas := alphas[i := aiNew];
      var (b1, b2) := CandidateBiases(bias, yi, yj, aiNew - aiOld, ajNew - ajOld, ei, ej, kii, kij, kjj);
      bias := ChooseBias(C, aiNew, ajNew, b1, b2);
      CommittedResult(C, epsilon, yi, yj, old(alphas), old(bias), i, j, ei, ej, kii, kij, kjj,
                      L, H, ajNew, aiNew, b1, b2);
      return Committed;
    }

    /**
     * optimize(X, y): zero alphas, weights and bias, then sweep over all
     * indices until `iteration`, which advances only after a pass in which
     * no pair was committed, reaches max_iterations. The number of passes is
     * bounded by `fuel`.
     */
    method Optimize(X: seq<Row>, y: seq<int>, fuel: nat) returns (outcome: Outcome)
      requires Valid() && supportVectors == X && |X| <= |y|
      modifies this
      ensures Valid() && supportVectors == X
      ensures weights == Zeros(|X|)
      ensures C >= 0.0 && BinaryLabels(y) ==> InBox(alphas, C)
      ensures outcome == PartnerSearchHangs ==> |X| == 1
    {
      var m := |X|;
      alphas := Zeros(m);
      weights := Zeros(m);
      bias := 0.0;
      var iteration := 0;
      var passes := fuel;
      while iteration < maxIterations
        invariant Valid() && supportVectors == X && weights == Zeros(m)
        invariant C >= 0.0 && BinaryLabels(y) ==> InBox(alphas, C)
        decreases passes
      {
        if passes == 0 {
          return OutOfFuel;
        }
        passes := passes - 1;
        var alphaChanged := 0;
        for i := 0 to m
          invariant Valid() && supportVectors == X && weights == Zeros(m)
          invariant C >= 0.0 && BinaryLabels(y) ==> InBox(alphas, C)
        {
          ghost var before, biasBefore := alphas, bias;
          var visit := TakeStep(X, y, i);
          if visit.NoPartner? {
            return PartnerSearchHangs;
          }
          if visit.Paired? {
            if C >= 0.0 && BinaryLabels(y) {
              PairUpdateKeepsBox(C, epsilon, y[i], y[visit.j], before, biasBefore, i, visit.j,
                DecisionValue(kernel, X, before, weights, biasBefore, X[i]) - y[i] as real,
                DecisionValue(kernel, X, before, weights, biasBefore, X[visit.j]) - y[visit.j] as real,
                kernel(X[i], X[i]), kernel(X[i], X[visit.j]), kernel(X[visit.j], X[visit.j]));
            }
            if visit.kind == Committed {
              alphaChanged := alphaChanged + 1;
            }
          }
        }
        if alphaChanged == 0 {
          iteration := iteration + 1;
        }
      }
      return Converged;
    }

    /** fit(X, y): the rows become the support vectors, then optimize runs. */
    method Fit(X: seq<Row>, y: seq<int>, fuel: nat) returns (outcome: Outcome)
      requires |X| <= |y|
      modifies this
      ensures Valid() && supportVectors == X && |alphas| == |X|
      ensures weights == Zeros(|X|)
      ensures C >= 0.0 && BinaryLabels(y) ==> InBox(alphas, C)
      ensures outcome == PartnerSearchHangs ==> |X| == 1
      ensures forall x :: DecisionValue(kernel, supportVectors, alphas, weights, bias, x) == bias
    {
      supportVectors := X;
      alphas, weights := Zeros(|X|), Zeros(|X|);
      outcome := Optimize(X, y, fuel);
      forall x | true
        ensures DecisionValue(kernel, supportVectors, alphas, weights, bias, x) == bias
      {
        DecisionIgnoresZeroWeights(kernel, supportVectors, alphas, weights, x, |supportVectors|);
      }
    }
  }

  // ---------------------------------------------------------------------
  // Lemmas
  // ---------------------------------------------------------------------

  /** With every weight zero, the decision sum vanishes: decision_function(x) is the bias. */
  lemma {:induction false} DecisionIgnoresZeroWeights(kernel: (Row, Row) -> real, sv: seq<Row>, alphas: seq<real>,
                                                     weights: seq<real>, x: Row, n: nat)
    requires n <= |sv| && n <= |alphas| && n <= |weights|
    requires forall k :: 0 <= k < n ==> weights[k] == 0.0
    ensures DecisionSum(kernel, sv, alphas, weights, x, n) == 0.0
  {
    if n > 0 {
      DecisionIgnoresZeroWeights(kernel, sv, alphas, weights, x, n - 1);
      ZeroFactor(alphas[n - 1], weights[n - 1], kernel(sv[n - 1], x));
    }
  }

  lemma ZeroFactor(a: real, w: real, k: real)
    requires w == 0.0
    ensures a * w * k == 0.0
  {
  }

  /** optimize starts inside the box: all alphas 0. */
  lemma StartInBox(m: nat, C: real)
    requires C >= 0.0
    ensures InBox(Zeros(m), C)
  {
  }

  /**
   * At the start of optimize (alphas 0, weights 0, bias 0) every index with a
   * prediction in {-1, +1} violates the KKT test when 0 < C and tolerance < 1.
   */
  lemma StartViolatesKkt(yi: int, C: real, tolerance: real)
    requires yi == 1 || yi == -1
    requires 0.0 < C && tolerance < 1.0
    ensures KktViolated(yi, 0.0 - yi as real, 0.0, C, tolerance)
  {
  }

  /** For alphas in the box the bounds satisfy 0 <= L and H <= C, and L <= H, so the clamp is defined. */
  lemma BoundsWellFormed(C: real, yi: int, yj: int, ai: real, aj: real)
    requires 0.0 <= ai <= C && 0.0 <= aj <= C
    ensures 0.0 <= Bounds(C, yi, yj, ai, aj).0 <= Bounds(C, yi, yj, ai, aj).1 <= C
  {
  }

  /** The two skips before the step change neither the alphas nor the bias; the step is taken only when L != H and eta < 0. */
  lemma SkipsLeaveStateUnchanged(C: real, epsilon: real, yi: int, yj: int, alphas: seq<real>, bias: real,
                                 i: nat, j: nat, ei: real, ej: real, kii: real, kij: real, kjj: real)
    requires i < |alphas| && j < |alphas| && i != j
    ensures var r := PairUpdate(C, epsilon, yi, yj, alphas, bias, i, j, ei, ej, kii, kij, kjj);
      (r.kind == DegenerateBounds || r.kind == NonNegativeEta) ==> r.alphas == alphas && r.bias == bias
    ensures var r := PairUpdate(C, epsilon, yi, yj, alphas, bias, i, j, ei, ej, kii, kij, kjj);
      var (L, H) := Bounds(C, yi, yj, alphas[i], alphas[j]);
      (r.kind == DegenerateBounds <==> L == H) &&
      (r.kind == NonNegativeEta <==> L != H && 2.0 * kij - kii - kjj >= 0.0)
  {
  }

  /** The compensating update of alpha_i keeps y_i alpha_i + y_j alpha_j, for labels in {-1, +1}. */
  lemma CompensationConserves(yi: int, yj: int, ai: real, aj: real, ajNew: real)
    requires yi == 1 || yi == -1
    requires yj == 1 || yj == -1
    ensures PairSum(yi, yj, ai + Compensation(yi, yj, aj - ajNew), ajNew) == PairSum(yi, yj, ai, aj)
  {
    if yi == 1 && yj == 1 {
    } else if yi == 1 {
    } else if yj == 1 {
    } else {
    }
  }

  /** A committed step writes exactly alpha_i and alpha_j, and alpha_j lies in [L, H] when L <= H. */
  lemma CommitWritesPair(C: real, epsilon: real, yi: int, yj: int, alphas: seq<real>, bias: real,
                         i: nat, j: nat, ei: real, ej: real, kii: real, kij: real, kjj: real)
    requires i < |alphas| && j < |alphas| && i != j
    ensures var r := PairUpdate(C, epsilon, yi, yj, alphas, bias, i, j, ei, ej, kii, kij, kjj);
      var (L, H) := Bounds(C, yi, yj, alphas[i], alphas[j]);
      r.kind == Committed ==>
        r.alphas == alphas[j := r.alphas[j]][i := r.alphas[i]] &&
        (L <= H ==> L <= r.alphas[j] <= H)
  {
    var r := PairUpdate(C, epsilon, yi, yj, alphas, bias, i, j, ei, ej, kii, kij, kjj);
    var (L, H) := Bounds(C, yi, yj, alphas[i], alphas[j]);
    if r.kind == Committed {
      var eta := 2.0 * kij - kii - kjj;
      var ajNew := NewAlphaJ(L, H, yj, alphas[j], ei, ej, eta);
      var aiNew := alphas[i] + Compensation(yi, yj, alphas[j] - ajNew);
      assert r.alphas == alphas[j := ajNew][i := aiNew];
    }
  }

  /** A committed step keeps y_i alpha_i + y_j alpha_j, for labels in {-1, +1}. */
  lemma CommitConservesPair(C: real, epsilon: real, yi: int, yj: int, alphas: seq<real>, bias: real,
                            i: nat, j: nat, ei: real, ej: real, kii: real, kij: real, kjj: real)
    requires i < |alphas| && j < |alphas| && i != j
    requires yi == 1 || yi == -1
    requires yj == 1 || yj == -1
    ensures var r := PairUpdate(C, epsilon, yi, yj, alphas, bias, i, j, ei, ej, kii, kij, kjj);
      r.kind == Committed ==>
        PairSum(yi, yj, r.alphas[i], r.alphas[j]) == PairSum(yi, yj, alphas[i], alphas[j])
  {
    var r := PairUpdate(C, epsilon, yi, yj, alphas, bias, i, j, ei, ej, kii, kij, kjj);
    var (L, H) := Bounds(C, yi, yj, alphas[i], alphas[j]);
    if r.kind == Committed {
      var eta := 2.0 * kij - kii - kjj;
      var ajNew := NewAlphaJ(L, H, yj, alphas[j], ei, ej, eta);
      var aiNew := alphas[i] + Compensation(yi, yj, alphas[j] - ajNew);
      assert r.alphas == alphas[j := ajNew][i := aiNew];
      assert r.alphas[i] == aiNew && r.alphas[j] == ajNew;
      CompensationConserves(yi, yj, alphas[i], alphas[j], ajNew);
    }
  }

  lemma Distribute(c: real, a: real, v: real)
    ensures c * v == c * a + c * (v - a)
  {
  }

  /** Replacing one entry changes the weighted sum by its weighted difference. */
  lemma {:induction false} WeightedSumUpdate(y: seq<int>, a: seq<real>, n: nat, k: nat, v: real)
    requires n <= |y| && n <= |a| && k < |a|
    ensures WeightedSum(y, a[k := v], n) ==
      WeightedSum(y, a, n) + (if k < n then y[k] as real * (v - a[k]) else 0.0)
  {
    if n > 0 {
      WeightedSumUpdate(y, a, n - 1, k, v);
      if k == n - 1 {
        Distribute(y[k] as real, a[k], v);
      }
    }
  }

  /**
   * Rewriting two entries so that their weighted sum is kept keeps the whole
   * weighted sum; with CommitConservesPair this is the conservation of the
   * sum of y * alpha, the equality constraint of the dual, by a committed step.
   */
  lemma TwoUpdatesKeepWeightedSum(y: seq<int>, a: seq<real>, i: nat, j: nat, ai: real, aj: real)
    requires |y| == |a| && i < |a| && j < |a| && i != j
    requires PairSum(y[i], y[j], ai, aj) == PairSum(y[i], y[j], a[i], a[j])
    ensures WeightedSum(y, a[j := aj][i := ai], |y|) == WeightedSum(y, a, |y|)
  {
    WeightedSumUpdate(y, a, |y|, j, aj);
    WeightedSumUpdate(y, a[j := aj], |y|, i, ai);
    Distribute(y[i] as real, a[i], ai);
    Distribute(y[j] as real, a[j], aj);
  }

  lemma PairChangeKeepsWeightedSum(y: seq<int>, a: seq<real>, b: seq<real>, i: nat, j: nat)
    requires |y| == |a| == |b| && i < |a| && j < |a| && i != j
    requires b == a[j := b[j]][i := b[i]]
    requires PairSum(y[i], y[j], b[i], b[j]) == PairSum(y[i], y[j], a[i], a[j])
    ensures WeightedSum(y, b, |y|) == WeightedSum(y, a, |y|)
  {
    TwoUpdatesKeepWeightedSum(y, a, i, j, b[i], b[j]);
  }

  /** The committed branch of PairUpdate, with its intermediate values named. */
  lemma CommittedResult(C: real, epsilon: real, yi: int, yj: int, alphas: seq<real>, bias: real,
                        i: nat, j: nat, ei: real, ej: real, kii: real, kij: real, kjj: real,
                        L: real, H: real, ajNew: real, aiNew: real, b1: real, b2: real)
    requires i < |alphas| && j < |alphas| && i != j
    requires (L, H) == Bounds(C, yi, yj, alphas[i], alphas[j]) && L != H
    requires 2.0 * kij - kii - kjj < 0.0
    requires ajNew == NewAlphaJ(L, H, yj, alphas[j], ei, ej, 2.0 * kij - kii - kjj)
    requires Abs(ajNew - alphas[j]) >= epsilon
    requires aiNew == alphas[i] + Compensation(yi, yj, alphas[j] - ajNew)
    requires (b1, b2) == CandidateBiases(bias, yi, yj, aiNew - alphas[i], ajNew - alphas[j], ei, ej, kii, kij, kjj)
    ensures PairUpdate(C, epsilon, yi, yj, alphas, bias, i, j, ei, ej, kii, kij, kjj) ==
      PairResult(Committed, alphas[j := ajNew][i := aiNew], ChooseBias(C, aiNew, ajNew, b1, b2))
  {
  }

  /**
   * A committed step keeps the whole sum of y * alpha, the equality
   * constraint of the dual problem.
   */
  lemma CommitConservesWeightedSum(C: real, epsilon: real, y: seq<int>, alphas: seq<real>, bias: real,
                                   i: nat, j: nat, ei: real, ej: real, kii: real, kij: real, kjj: real)
    requires |y| == |alphas| && i < |alphas| && j < |alphas| && i != j
    requires BinaryLabels(y)
    ensures var r := PairUpdate(C, epsilon, y[i], y[j], alphas, bias, i, j, ei, ej, kii, kij, kjj);
      r.kind == Committed ==> WeightedSum(y, r.alphas, |y|) == WeightedSum(y, alphas, |y|)
  {
    var r := PairUpdate(C, epsilon, y[i], y[j], alphas, bias, i, j, ei, ej, kii, kij, kjj);
    if r.kind == Committed {
      CommitWritesPair(C, epsilon, y[i], y[j], alphas, bias, i, j, ei, ej, kii, kij, kjj);
      CommitConservesPair(C, epsilon, y[i], y[j], alphas, bias, i, j, ei, ej, kii, kij, kjj);
      PairChangeKeepsWeightedSum(y, alphas, r.alphas, i, j);
    }
  }

  /** Every branch of the pair update keeps the alphas in the box [0, C]. */
  lemma PairUpdateKeepsBox(C: real, epsilon: real, yi: int, yj: int, alphas: seq<real>, bias: real,
                           i: nat, j: nat, ei: real, ej: real, kii: real, kij: real, kjj: real)
    requires i < |alphas| && j < |alphas| && i != j
    requires yi == 1 || yi == -1
    requires yj == 1 || yj == -1
    requires InBox(alphas, C)
    ensures InBox(PairUpdate(C, epsilon, yi, yj, alphas, bias, i, j, ei, ej, kii, kij, kjj).alphas, C)
  {
    var r := PairUpdate(C, epsilon, yi, yj, alphas, bias, i, j, ei, ej, kii, kij, kjj);
    BoundsWellFormed(C, yi, yj, alphas[i], alphas[j]);
    if r.kind == Committed {
      CommitWritesPair(C, epsilon, yi, yj, alphas, bias, i, j, ei, ej, kii, kij, kjj);
    }
  }

  /**
   * The epsilon skip can break conservation: alpha_j' is stored but alpha_i
   * is not compensated. With alphas (0, 0.999999), labels (+1, -1), bias 0,
   * K(i,i) = K(j,j) = 1, K(i,j) = 0.5, C = 1 and epsilon = 1e-5, index 0
   * violates the KKT test, alpha_1 is clipped to 1 (a move of 1e-6) and the
   * sum of y * alpha drifts from -0.999999 to -1.
   */
  lemma EpsilonSkipDrifts()
    ensures var alphas, y := [0.0, 0.999999], [1, -1];
      var ei, ej := 0.0 - 1.0, 0.0 + 1.0;
      var r := PairUpdate(1.0, 0.00001, 1, -1, alphas, 0.0, 0, 1, ei, ej, 1.0, 0.5, 1.0);
      KktViolated(1, ei, 0.0, 1.0, 0.001) &&
      r.kind == NegligibleMove && r.alphas == [0.0, 1.0] &&
      WeightedSum(y, alphas, 2) == -0.999999 && WeightedSum(y, r.alphas, 2) == -1.0
  {
    var alphas, y := [0.0, 0.999999], [1, -1];
    assert Bounds(1.0, 1, -1, 0.0, 0.999999) == (0.999999, 1.0);
    assert NewAlphaJ(0.999999, 1.0, -1, 0.999999, -1.0, 1.0, -1.0) == 1.0;
    assert alphas[1 := 1.0] == [0.0, 1.0];
    assert WeightedSum(y, alphas, 1) == 0.0;
    assert WeightedSum(y, [0.0, 1.0], 1) == 0.0;
  }

  /**
   * When alpha_j is not clipped, the two candidate biases coincide, so the
   * bias rule only matters at the box edges.
   */
  lemma UnclippedBiasesAgree(yi: int, yj: int, ai: real, aj: real, bias: real, ei: real, ej: real,
                             kii: real, kij: real, kjj: real)
    requires yi == 1 || yi == -1
    requires yj == 1 || yj == -1
    requires 2.0 * kij - kii - kjj < 0.0
    ensures var eta := 2.0 * kij - kii - kjj;
      var ajNew := aj - (yj as real * (ei - ej)) / eta;
      var aiNew := ai + Compensation(yi, yj, aj - ajNew);
      var (b1, b2) := CandidateBiases(bias, yi, yj, aiNew - ai, ajNew - aj, ei, ej, kii, kij, kjj);
      b1 == b2
  {
  }

  /**
   * Because the weights stay zero, the errors are E_k = bias - y_k, so a pair
   * with equal labels has E_i = E_j: alpha_j does not move and the step is
   * never committed. In the box such a pair changes nothing at all.
   */
  lemma SameLabelsNeverCommit(C: real, epsilon: real, yi: int, alphas: seq<real>, bias: real,
                              i: nat, j: nat, kii: real, kij: real, kjj: real)
    requires i < |alphas| && j < |alphas| && i != j
    requires 0.0 <= alphas[i] <= C && 0.0 <= alphas[j] <= C
    requires epsilon > 0.0
    ensures var e := bias - yi as real;
      var r := PairUpdate(C, epsilon, yi, yi, alphas, bias, i, j, e, e, kii, kij, kjj);
      r.kind != Committed && r.alphas == alphas && r.bias == bias
  {
    var e := bias - yi as real;
    var (L, H) := Bounds(C, yi, yi, alphas[i], alphas[j]);
    var eta := 2.0 * kij - kii - kjj;
    if L != H && eta < 0.0 {
      assert (yi as real * (e - e)) / eta == 0.0;
      assert NewAlphaJ(L, H, yi, alphas[j], e, e, eta) == alphas[j];
      assert alphas[j := alphas[j]] == alphas;
    }
  }
}
