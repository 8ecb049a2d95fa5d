/**
 * The label and distance-matrix variant of agglomerative clustering,
 * src/Clustering/hierarchical_clustering.cpp.
 *
 * `fit` labels every sample with its own index, fills a symmetric distance
 * matrix with a zero diagonal, and then, while more clusters remain than
 * asked for, finds the closest pair (a, b) of the matrix, relabels b's
 * samples with a, folds row b into row a with `std::min` (single linkage)
 * and fills row and column b with DBL_MAX. The Eigen matrix is an
 * `array2<real>`; `compute_distance` (an Eigen norm) is a function
 * parameter.
 */
module MatrixClustering {
  import opened Wrappers
  import opened Numeric

  type Row = seq<real>
  type Matrix = seq<seq<real>>

  // ---------------------------------------------------------------------
  // Matrices as values
  // ---------------------------------------------------------------------

  ghost predicate IsSquare(m: Matrix, n: nat)
  {
    |m| == n && forall i :: 0 <= i < n ==> |m[i]| == n
  }

  ghost predicate Symmetric(m: Matrix)
    requires IsSquare(m, |m|)
  {
    forall i, j :: 0 <= i < |m| && 0 <= j < |m| ==> m[i][j] == m[j][i]
  }

  /** The contents of an array as a matrix value. */
  ghost function Snapshot(d: array2<real>): (m: Matrix)
    reads d
    ensures |m| == d.Length0
    ensures forall i :: 0 <= i < d.Length0 ==> |m[i]| == d.Length1
    ensures forall i, j :: 0 <= i < d.Length0 && 0 <= j < d.Length1 ==> m[i][j] == d[i, j]
  {
    seq(d.Length0, i requires 0 <= i < d.Length0 reads d =>
      seq(d.Length1, j requires 0 <= j < d.Length1 reads d => d[i, j]))
  }

  /** The matrix fit builds: 0 on the diagonal, the metric of the pair elsewhere. */
  function InitialEntry(metric: (Row, Row) -> real, data: seq<Row>, i: nat, j: nat): real
    requires i < |data| && j < |data|
  {
    if i < j then metric(data[i], data[j])
    else if j < i then metric(data[j], data[i])
    else 0.0
  }

  /**
   * Entry (p, q) once the first `upto` indices of the merge loop of
   * update_distance_matrix have run: row and column a take the smaller of
   * the a and b entries at the indices seen so far.
   */
  function Folded(m: Matrix, a: nat, b: nat, upto: nat, p: nat, q: nat): real
    requires IsSquare(m, |m|) && a < |m| && b < |m| && p < |m| && q < |m|
  {
    if p == a && q != a && q != b && q < upto then Min(m[a][q], m[b][q])
    else if q == a && p != a && p != b && p < upto then Min(m[a][p], m[b][p])
    else m[p][q]
  }

  /** Entry (p, q) after update_distance_matrix(a, b): row and column b hold DBL_MAX. */
  function MergedEntry(m: Matrix, a: nat, b: nat, p: nat, q: nat): real
    requires IsSquare(m, |m|) && a < |m| && b < |m| && p < |m| && q < |m|
  {
    if p == b || q == b then MaxDouble else Folded(m, a, b, |m|, p, q)
  }

  /** The matrix after update_distance_matrix(a, b). */
  ghost function MergeRows(m: Matrix, a: nat, b: nat): (r: Matrix)
    requires IsSquare(m, |m|) && a < |m| && b < |m|
    ensures IsSquare(r, |m|)
  {
    seq(|m|, p requires 0 <= p < |m| => seq(|m|, q requires 0 <= q < |m| => MergedEntry(m, a, b, p, q)))
  }

  /** The labels after every sample labelled b is relabelled a. */
  function Relabel(labels: seq<int>, b: int, a: int): (r: seq<int>)
    ensures |r| == |labels|
  {
    seq(|labels|, i requires 0 <= i < |labels| => if labels[i] == b then a else labels[i])
  }

  /** The distinct labels: one per cluster. */
  function LabelSet(labels: seq<int>): set<int>
  {
    set i | 0 <= i < |labels| :: labels[i]
  }

  /** The indices 0 to n - 1. */
  function Range(n: nat): set<int>
  {
    if n == 0 then {} else Range(n - 1) + {n - 1}
  }

  /** Every pair of distinct samples is closer than DBL_MAX. */
  ghost predicate AllBelowMax(metric: (Row, Row) -> real, data: seq<Row>)
  {
    forall i, j :: 0 <= i < j < |data| ==> metric(data[i], data[j]) < MaxDouble
  }

  /** Entries that involve an index no sample is labelled with hold DBL_MAX. */
  ghost predicate RetiredAreMax(m: Matrix, active: set<int>)
    requires IsSquare(m, |m|)
  {
    (forall i, j :: 0 <= i < |m| && 0 <= j < |m| && i !in active ==> m[i][j] == MaxDouble) &&
    (forall i, j :: 0 <= i < |m| && 0 <= j < |m| && j !in active ==> m[i][j] == MaxDouble)
  }

  /** Entries between two distinct live clusters are below DBL_MAX. */
  ghost predicate LiveBelowMax(m: Matrix, active: set<int>)
    requires IsSquare(m, |m|)
  {
    forall i, j :: 0 <= i < |m| && 0 <= j < |m| && i != j && i in active && j in active ==> m[i][j] < MaxDouble
  }

  /** (p, q) comes before (a, b) in the row-major scan of find_closest_clusters. */
  ghost predicate ScannedFirst(p: int, q: int, a: int, b: int)
  {
    p < a || (p == a && q < b)
  }

  /** Pairs p < q the scan has looked at once it reaches row i, column j. */
  ghost predicate Scanned(p: int, q: int, i: int, j: int, cols: int)
  {
    0 <= p && p < q < cols && (p < i || (p == i && q < j))
  }

  /** What find_closest_clusters returns: (-1, -1, DBL_MAX), or a pair a < b inside the matrix. */
  predicate Pick(best: (int, int, real), rows: nat, cols: nat)
  {
    if best.0 == -1 then best.1 == -1 && best.2 == MaxDouble
    else 0 <= best.0 < rows && best.0 < best.1 < cols
  }

  /**
   * The scan of find_closest_clusters as a function: from row i, column j
   * on, over the entries (p, q) with p < q in row-major order, an entry
   * replaces the best so far only when it is strictly smaller.
   */
  function ScanMatrix(m: Matrix, cols: nat, i: nat, j: nat, best: (int, int, real)): (r: (int, int, real))
    requires forall p :: 0 <= p < |m| ==> |m[p]| == cols
    requires i < j && Pick(best, |m|, cols)
    ensures Pick(r, |m|, cols)
    decreases |m| - i, cols - j
  {
    if i >= |m| then best
    else if j >= cols then ScanMatrix(m, cols, i + 1, i + 2, best)
    else ScanMatrix(m, cols, i, j + 1, if m[i][j] < best.2 then (i, j, m[i][j]) else best)
  }

  /** What the scan has established on reaching row i, column j with best so far. */
  ghost predicate MatrixScanReady(m: Matrix, cols: nat, i: nat, j: nat, best: (int, int, real))
    requires forall p :: 0 <= p < |m| ==> |m[p]| == cols
  {
    Pick(best, |m|, cols) &&
    (best.0 != -1 ==> best.2 == m[best.0][best.1] && best.2 < MaxDouble && Scanned(best.0, best.1, i, j, cols)) &&
    (forall p, q :: Scanned(p, q, i, j, cols) && p < |m| ==> best.2 <= m[p][q]) &&
    (best.0 != -1 ==> forall p, q :: Scanned(p, q, i, j, cols) && p < |m| && ScannedFirst(p, q, best.0, best.1) ==> best.2 < m[p][q])
  }

  /**
   * The outcome of find_closest_clusters: (-1, -1, DBL_MAX) exactly when no
   * entry above the diagonal is below DBL_MAX, and otherwise the first
   * smallest such entry.
   */
  ghost predicate MatrixClosest(m: Matrix, cols: nat, r: (int, int, real))
    requires forall p :: 0 <= p < |m| ==> |m[p]| == cols
  {
    if r.0 == -1 then
      r == (-1, -1, MaxDouble) &&
      forall p, q :: 0 <= p < |m| && p < q < cols ==> m[p][q] >= MaxDouble
    else
      0 <= r.0 < |m| && r.0 < r.1 < cols && r.2 == m[r.0][r.1] && r.2 < MaxDouble &&
      (forall p, q :: 0 <= p < |m| && p < q < cols ==> r.2 <= m[p][q]) &&
      (forall p, q :: 0 <= p < |m| && p < q < cols && ScannedFirst(p, q, r.0, r.1) ==> r.2 < m[p][q])
  }

  /** The scan from any ready state ends in the outcome find_closest_clusters promises. */
  lemma {:induction false} ScanMatrixFindsClosest(m: Matrix, cols: nat, i: nat, j: nat, best: (int, int, real))
    requires forall p :: 0 <= p < |m| ==> |m[p]| == cols
    requires i < j && MatrixScanReady(m, cols, i, j, best)
    ensures MatrixClosest(m, cols, ScanMatrix(m, cols, i, j, best))
    decreases |m| - i, cols - j
  {
    if i >= |m| {
      MatrixScanDone(m, cols, i, j, best);
    } else if j >= cols {
      MatrixScanNextRow(m, cols, i, j, best);
      ScanMatrixRowEnd(m, cols, i, j, best);
      ScanMatrixFindsClosest(m, cols, i + 1, i + 2, best);
    } else {
      var next := if m[i][j] < best.2 then (i, j, m[i][j]) else best;
      MatrixScanNextPair(m, cols, i, j, best);
      ScanMatrixStep(m, cols, i, j, best);
      ScanMatrixFindsClosest(m, cols, i, j + 1, next);
    }
  }

  /** Past the last row every pair above the diagonal has been scanned. */
  lemma MatrixScanDone(m: Matrix, cols: nat, i: nat, j: nat, best: (int, int, real))
    requires forall p :: 0 <= p < |m| ==> |m[p]| == cols
    requires |m| <= i && MatrixScanReady(m, cols, i, j, best)
    ensures MatrixClosest(m, cols, best)
  {
    forall p, q | 0 <= p < |m| && p < q < cols
      ensures Scanned(p, q, i, j, cols)
    {
    }
  }

  /** The end of row i scanned the same entries as the start of row i + 1. */
  lemma MatrixScanNextRow(m: Matrix, cols: nat, i: nat, j: nat, best: (int, int, real))
    requires forall p :: 0 <= p < |m| ==> |m[p]| == cols
    requires i < |m| && cols <= j && MatrixScanReady(m, cols, i, j, best)
    ensures MatrixScanReady(m, cols, i + 1, i + 2, best)
  {
  }

  /** Scanning entry (i, j) keeps the state of the scan. */
  lemma MatrixScanNextPair(m: Matrix, cols: nat, i: nat, j: nat, best: (int, int, real))
    requires forall p :: 0 <= p < |m| ==> |m[p]| == cols
    requires i < j < cols && i < |m| && MatrixScanReady(m, cols, i, j, best)
    ensures MatrixScanReady(m, cols, i, j + 1, if m[i][j] < best.2 then (i, j, m[i][j]) else best)
  {
  }

  /** One entry of the scan. */
  lemma ScanMatrixStep(m: Matrix, cols: nat, i: nat, j: nat, best: (int, int, real))
    requires forall p :: 0 <= p < |m| ==> |m[p]| == cols
    requires i < j < cols && i < |m| && Pick(best, |m|, cols)
    ensures ScanMatrix(m, cols, i, j, best) == ScanMatrix(m, cols, i, j + 1, if m[i][j] < best.2 then (i, j, m[i][j]) else best)
  {
  }

  /** The end of a row of the scan. */
  lemma ScanMatrixRowEnd(m: Matrix, cols: nat, i: nat, j: nat, best: (int, int, real))
    requires forall p :: 0 <= p < |m| ==> |m[p]| == cols
    requires i < j && cols <= j && i < |m| && Pick(best, |m|, cols)
    ensures ScanMatrix(m, cols, i, j, best) == ScanMatrix(m, cols, i + 1, i + 2, best)
  {
  }

  /** The outcome of the scan, read back on the array it was taken from. */
  lemma ClosestInArray(d: array2<real>, r: (int, int, real))
    requires MatrixClosest(Snapshot(d), d.Length1, r)
    ensures (forall p, q :: 0 <= p < d.Length0 && p < q < d.Length1 ==> d[p, q] >= MaxDouble) ==>
      r == (-1, -1, MaxDouble)
    ensures (exists p, q :: 0 <= p < d.Length0 && p < q < d.Length1 && d[p, q] < MaxDouble) ==>
      0 <= r.0 < d.Length0 && r.0 < r.1 < d.Length1 && r.2 == d[r.0, r.1] && r.2 < MaxDouble &&
      (forall p, q :: 0 <= p < d.Length0 && p < q < d.Length1 ==> r.2 <= d[p, q]) &&
      (forall p, q :: 0 <= p < d.Length0 && p < q < d.Length1 && ScannedFirst(p, q, r.0, r.1) ==> r.2 < d[p, q])
  {
  }

  /** The matrix fit starts from. */
  ghost function InitialMatrix(metric: (Row, Row) -> real, data: seq<Row>): Matrix
  {
    seq(|data|, i requires 0 <= i < |data| =>
      seq(|data|, j requires 0 <= j < |data| => InitialEntry(metric, data, i, j)))
  }

  /** The labels fit starts from: sample i in cluster i. */
  function Identity(n: nat): seq<int>
  {
    seq(n, i => i)
  }

  /** How many passes the loop of fit makes, from n active clusters down to num_clusters. */
  function Passes(numClusters: int, n: nat): nat
  {
    if numClusters < n then n - numClusters else 0
  }

  /**
   * The labels fit ends with, from matrix m and labels `labels`, after
   * `passes` more passes of its loop: each pass merges the pair that
   * find_closest_clusters picks from the current matrix. None when a pass
   * finds no pair, where the source goes on to index row -1.
   */
  ghost function Agglomerated(m: Matrix, labels: seq<int>, passes: nat): Option<seq<int>>
    requires IsSquare(m, |m|)
    decreases passes
  {
    if passes == 0 then Some(labels)
    else
      var pick := ScanMatrix(m, |m|, 0, 1, (-1, -1, MaxDouble));
      if pick.0 == -1 then None
      else Agglomerated(MergeRows(m, pick.0, pick.1), Relabel(labels, pick.1, pick.0), passes - 1)
  }

  // ---------------------------------------------------------------------
  // The class
  // ---------------------------------------------------------------------

  datatype FitOutcome =
    | Completed
      /** find_closest_clusters found no entry below DBL_MAX and returned (-1, -1); the update then indexes row -1. */
    | NoPairLeft

  class HierarchicalClustering {
    const numClusters: int
    var labels: seq<int>

    constructor (numClusters: int)
      ensures this.numClusters == numClusters && labels == []
    {
      this.numClusters := numClusters;
      labels := [];
    }

    /** get_labels. */
    function GetLabels(): seq<int>
      reads this
    {
      labels
    }

    /**
     * find_closest_clusters: the first pair i < j in row-major order with
     * the least entry, provided some entry is below DBL_MAX; otherwise
     * (-1, -1, DBL_MAX).
     */
    method FindClosestClusters(d: array2<real>) returns (a: int, b: int, minDist: real)
      ensures (forall p, q :: 0 <= p < d.Length0 && p < q < d.Length1 ==> d[p, q] >= MaxDouble) ==>
        a == -1 && b == -1 && minDist == MaxDouble
      ensures (exists p, q :: 0 <= p < d.Length0 && p < q < d.Length1 && d[p, q] < MaxDouble) ==>
        0 <= a < d.Length0 && a < b < d.Length1 && minDist == d[a, b] && minDist < MaxDouble &&
        (forall p, q :: 0 <= p < d.Length0 && p < q < d.Length1 ==> minDist <= d[p, q]) &&
        (forall p, q :: 0 <= p < d.Length0 && p < q < d.Length1 && ScannedFirst(p, q, a, b) ==> minDist < d[p, q])
      ensures (a, b, minDist) == ScanMatrix(Snapshot(d), d.Length1, 0, 1, (-1, -1, MaxDouble))
    {
      a, b := -1, -1;
      minDist := MaxDouble;
      ghost var m := Snapshot(d);
      ghost var goal := ScanMatrix(m, d.Length1, 0, 1, (-1, -1, MaxDouble));
      for i := 0 to d.Length0
        invariant Pick((a, b, minDist), d.Length0, d.Length1)
        invariant ScanMatrix(m, d.Length1, i, i + 1, (a, b, minDist)) == goal
      {
        var j := i + 1;
        while j < d.Length1
          invariant i + 1 <= j
          invariant Pick((a, b, minDist), d.Length0, d.Length1)
          invariant ScanMatrix(m, d.Length1, i, j, (a, b, minDist)) == goal
        {
          ScanMatrixStep(m, d.Length1, i, j, (a, b, minDist));
          if d[i, j] < minDist {
            minDist := d[i, j];
            a, b := i, j;
          }
          j := j + 1;
        }
        ScanMatrixRowEnd(m, d.Length1, i, j, (a, b, minDist));
      }
      assert MatrixScanReady(m, d.Length1, 0, 1, (-1, -1, MaxDouble));
      ScanMatrixFindsClosest(m, d.Length1, 0, 1, (-1, -1, MaxDouble));
      ClosestInArray(d, (a, b, minDist));
    }

    /**
     * update_distance_matrix: for every i other than a and b, entries
     * (a, i) and (i, a) become min(d(a, i), d(b, i)); then column b and
     * row b are set to DBL_MAX.
     */
    method UpdateDistanceMatrix(d: array2<real>, a: int, b: int)
      requires d.Length0 == d.Length1 && 0 <= a < d.Length0 && 0 <= b < d.Length0
      modifies d
      ensures Snapshot(d) == MergeRows(old(Snapshot(d)), a, b)
    {
      ghost var m := Snapshot(d);
      var n := d.Length0;
      for i := 0 to n
        invariant forall p, q :: 0 <= p < n && 0 <= q < n ==> d[p, q] == Folded(m, a, b, i, p, q)
      {
        if i != a && i != b {
          var v := Min(d[a, i], d[b, i]);
          d[i, a] := v;
          d[a, i] := v;
        }
      }
      for i := 0 to n
        invariant forall p, q :: 0 <= p < n && 0 <= q < n ==>
          d[p, q] == if q == b && p < i then MaxDouble else Folded(m, a, b, n, p, q)
      {
        d[i, b] := MaxDouble;
      }
      for j := 0 to n
        invariant forall p, q :: 0 <= p < n && 0 <= q < n ==>
          d[p, q] == if (p == b && q < j) || q == b then MaxDouble else Folded(m, a, b, n, p, q)
      {
        d[b, j] := MaxDouble;
      }
      ghost var r := MergeRows(m, a, b);
      forall p | 0 <= p < n
        ensures Snapshot(d)[p] == r[p]
      {
        assert forall q :: 0 <= q < n ==> Snapshot(d)[p][q] == MergedEntry(m, a, b, p, q) == r[p][q];
      }
    }

    /** The distance matrix of fit's first loops: symmetric, zero on the diagonal. */
    method InitialDistances(metric: (Row, Row) -> real, data: seq<Row>) returns (d: array2<real>)
      ensures fresh(d) && d.Length0 == |data| && d.Length1 == |data|
      ensures forall i, j :: 0 <= i < |data| && 0 <= j < |data| ==> d[i, j] == InitialEntry(metric, data, i, j)
    {
      var n := |data|;
      d := new real[n, n]((_, _) => 0.0);
      for i := 0 to n
        invariant forall p, q :: 0 <= p < n && 0 <= q < n ==>
          d[p, q] == if (p < i || q < i) then InitialEntry(metric, data, p, q) else 0.0
      {
        for j := i + 1 to n
          invariant forall p, q :: 0 <= p < n && 0 <= q < n ==>
            d[p, q] == if (p < i || q < i || (p == i && q < j) || (q == i && p < j)) then InitialEntry(metric, data, p, q) else 0.0
        {
          var dist := metric(data[i], data[j]);
          d[j, i] := dist;
          d[i, j] := dist;
        }
      }
    }

    /** One pass of the loop of fit: relabel b's samples with a, then update the matrix. */
    method Merge(distances: array2<real>, a: int, b: int)
      requires distances.Length0 == |labels| && distances.Length1 == |labels|
      requires 0 <= a < |labels| && 0 <= b < |labels|
      modifies this, distances
      ensures labels == Relabel(old(labels), b, a)
      ensures Snapshot(distances) == MergeRows(old(Snapshot(distances)), a, b)
    {
      var n := |labels|;
      var merged := labels;
      for i := 0 to n
        invariant |merged| == n
        invariant forall k :: 0 <= k < i ==> merged[k] == (if old(labels)[k] == b then a else old(labels)[k])
        invariant forall k :: i <= k < n ==> merged[k] == old(labels)[k]
      {
        if merged[i] == b {
          merged := merged[i := a];
        }
      }
      labels := merged;
      UpdateDistanceMatrix(distances, a, b);
    }

    /**
     * The first lines of fit: every sample labelled with its own index, and
     * the initial distance matrix, which meets the invariants of the merge
     * loop.
     */
    method Start(metric: (Row, Row) -> real, data: seq<Row>) returns (distances: array2<real>)
      modifies this
      ensures fresh(distances) && distances.Length0 == |data| && distances.Length1 == |data|
      ensures labels == Identity(|data|)
      ensures Snapshot(distances) == InitialMatrix(metric, data)
      ensures |LabelSet(labels)| == |data| && Representatives(labels)
      ensures RetiredAreMax(Snapshot(distances), LabelSet(labels))
      ensures AllBelowMax(metric, data) ==> LiveBelowMax(Snapshot(distances), LabelSet(labels))
    {
      var nSamples := |data|;
      var initial := seq(nSamples, _ => 0);
      for i := 0 to nSamples
        invariant |initial| == nSamples
        invariant forall k :: 0 <= k < i ==> initial[k] == k
      {
        initial := initial[i := i];
      }
      labels := initial;
      IdentityLabels(labels);
      assert labels == Identity(nSamples);

      distances := InitialDistances(metric, data);
      InitialInvariants(metric, data, Snapshot(distances), labels);
      InitialSnapshot(metric, data, distances);
    }

    /**
     * One pass of the loop of fit: find the closest pair and merge it. When
     * there is none (where the source goes on to index row -1), nothing
     * changes; with finite distances that happens only once at most one
     * label is left.
     */
    method MergeClosest(metric: (Row, Row) -> real, data: seq<Row>, distances: array2<real>, ghost passes: nat)
      returns (found: bool)
      requires |labels| == |data| && distances.Length0 == |data| && distances.Length1 == |data|
      requires Representatives(labels)
      requires RetiredAreMax(Snapshot(distances), LabelSet(labels))
      requires AllBelowMax(metric, data) ==> LiveBelowMax(Snapshot(distances), LabelSet(labels))
      requires passes >= 1
      modifies this, distances
      ensures |labels| == |data| && Representatives(labels)
      ensures RetiredAreMax(Snapshot(distances), LabelSet(labels))
      ensures AllBelowMax(metric, data) ==> LiveBelowMax(Snapshot(distances), LabelSet(labels))
      ensures found ==> |LabelSet(labels)| == |LabelSet(old(labels))| - 1
      ensures !found ==> labels == old(labels) && (AllBelowMax(metric, data) ==> |LabelSet(labels)| <= 1)
      ensures Agglomerated(old(Snapshot(distances)), old(labels), passes) ==
        if found then Agglomerated(Snapshot(distances), labels, passes - 1) else None
    {
      var a, b, minDist := FindClosestClusters(distances);
      ghost var before := labels;
      ghost var m := Snapshot(distances);
      AgglomeratedPass(m, labels, passes, (a, b, minDist));
      if a == -1 {
        NoPairMeansOneCluster(metric, data, m, labels);
        return false;
      }
      FoundPairIsLive(m, LabelSet(labels), a, b);
      Merge(distances, a, b);
      MergeStepKeepsInvariants(metric, data, m, before, a, b);
      found := true;
    }

    /**
     * fit: merges the closest pair until at most num_clusters labels
     * remain. Every label is the index of a sample that carries it; when
     * the run completes there are min(num_clusters, n) distinct labels; it
     * always completes when num_clusters >= 1 and all distances are below
     * DBL_MAX, and performs no merge when num_clusters >= n.
     */
    method Fit(metric: (Row, Row) -> real, data: seq<Row>) returns (outcome: FitOutcome)
      modifies this
      ensures |labels| == |data|
      ensures forall i :: 0 <= i < |labels| ==> 0 <= labels[i] < |labels| && labels[labels[i]] == labels[i]
      ensures outcome == Completed ==> |LabelSet(labels)| == (if numClusters < |data| then numClusters else |data|)
      ensures numClusters >= |data| ==> outcome == Completed && forall i :: 0 <= i < |labels| ==> labels[i] == i
      ensures AllBelowMax(metric, data) && numClusters >= 1 ==> outcome == Completed
      ensures var r := Agglomerated(InitialMatrix(metric, data), Identity(|data|), Passes(numClusters, |data|));
        (outcome == Completed <==> r.Some?) && (outcome == Completed ==> labels == r.value)
    {
      var distances := Start(metric, data);
      var n := |data|;
      var nSamples := n;
      ghost var goal := Agglomerated(InitialMatrix(metric, data), labels, Passes(numClusters, n));

      while nSamples > numClusters
        invariant |labels| == n && distances.Length0 == n && distances.Length1 == n
        invariant nSamples == |LabelSet(labels)|
        invariant numClusters < n ==> nSamples >= numClusters
        invariant numClusters >= n ==> nSamples == n && forall i :: 0 <= i < n ==> labels[i] == i
        invariant Representatives(labels)
        invariant RetiredAreMax(Snapshot(distances), LabelSet(labels))
        invariant AllBelowMax(metric, data) ==> LiveBelowMax(Snapshot(distances), LabelSet(labels))
        invariant Agglomerated(Snapshot(distances), labels, Passes(numClusters, nSamples)) == goal
        decreases nSamples
      {
        ghost var passes := Passes(numClusters, nSamples);
        var found := MergeClosest(metric, data, distances, passes);
        if !found {
          return NoPairLeft;
        }
        assert Passes(numClusters, nSamples - 1) == passes - 1;
        nSamples := nSamples - 1;
      }
      outcome := Completed;
    }
  }

  // ---------------------------------------------------------------------
  // Lemmas
  // ---------------------------------------------------------------------

  /**
   * Three samples at 0, 1 and 5 on a line, clustered into two: fit merges
   * the two nearest, so samples 0 and 1 share label 0.
   */
  lemma ThreeSampleExample(metric: (Row, Row) -> real)
    requires metric([0.0], [1.0]) == 1.0 && metric([0.0], [5.0]) == 5.0 && metric([1.0], [5.0]) == 4.0
    ensures Agglomerated(InitialMatrix(metric, [[0.0], [1.0], [5.0]]), Identity(3), Passes(2, 3)) == Some([0, 0, 2])
  {
    var data: seq<Row> := [[0.0], [1.0], [5.0]];
    var m := InitialMatrix(metric, data);
    assert data[0] == [0.0] && data[1] == [1.0] && data[2] == [5.0];
    assert m[0][1] == 1.0 && m[0][2] == 5.0 && m[1][2] == 4.0;
    var best := (0, 1, 1.0);
    assert ScanMatrix(m, 3, 2, 3, best) == best;
    assert ScanMatrix(m, 3, 1, 2, best) == best;
    assert ScanMatrix(m, 3, 0, 2, best) == best;
    assert ScanMatrix(m, 3, 0, 1, (-1, -1, MaxDouble)) == best;
    assert Identity(3) == [0, 1, 2];
    assert Relabel([0, 1, 2], 1, 0) == [0, 0, 2];
  }

  /** The array InitialDistances fills holds InitialMatrix. */
  lemma InitialSnapshot(metric: (Row, Row) -> real, data: seq<Row>, d: array2<real>)
    requires d.Length0 == |data| && d.Length1 == |data|
    requires forall i, j :: 0 <= i < |data| && 0 <= j < |data| ==> d[i, j] == InitialEntry(metric, data, i, j)
    ensures Snapshot(d) == InitialMatrix(metric, data)
  {
    var m0 := InitialMatrix(metric, data);
    forall i | 0 <= i < |data|
      ensures Snapshot(d)[i] == m0[i]
    {
      assert forall j :: 0 <= j < |data| ==> Snapshot(d)[i][j] == m0[i][j];
    }
  }

  /** One pass of Agglomerated: None without a pick, else the merge of the pick. */
  lemma AgglomeratedPass(m: Matrix, labels: seq<int>, passes: nat, pick: (int, int, real))
    requires IsSquare(m, |m|) && passes >= 1
    requires pick == ScanMatrix(m, |m|, 0, 1, (-1, -1, MaxDouble))
    ensures pick.0 == -1 ==> Agglomerated(m, labels, passes) == None
    ensures pick.0 != -1 ==> 0 <= pick.0 < |m| && 0 <= pick.1 < |m|
    ensures pick.0 != -1 ==>
      Agglomerated(m, labels, passes) == Agglomerated(MergeRows(m, pick.0, pick.1), Relabel(labels, pick.1, pick.0), passes - 1)
  {
  }

  lemma {:induction false} RangeCard(n: nat)
    ensures |Range(n)| == n
    ensures forall x :: x in Range(n) <==> 0 <= x < n
  {
    if n > 0 {
      RangeCard(n - 1);
    }
  }

  /** The identity labelling has n distinct labels, 0 to n - 1. */
  lemma IdentityLabels(labels: seq<int>)
    requires forall k :: 0 <= k < |labels| ==> labels[k] == k
    ensures LabelSet(labels) == Range(|labels|)
    ensures |LabelSet(labels)| == |labels|
  {
    RangeCard(|labels|);
    forall x | x in Range(|labels|)
      ensures x in LabelSet(labels)
    {
      assert labels[x] == x;
    }
    forall x | x in LabelSet(labels)
      ensures x in Range(|labels|)
    {
      var i :| 0 <= i < |labels| && labels[i] == x;
    }
  }

  /** The initial matrix: symmetric, zero diagonal, and the loop invariants of fit hold for it. */
  lemma InitialInvariants(metric: (Row, Row) -> real, data: seq<Row>, m: Matrix, labels: seq<int>)
    requires IsSquare(m, |data|) && |labels| == |data|
    requires forall i, j :: 0 <= i < |data| && 0 <= j < |data| ==> m[i][j] == InitialEntry(metric, data, i, j)
    requires LabelSet(labels) == Range(|labels|)
    ensures Symmetric(m)
    ensures forall i :: 0 <= i < |m| ==> m[i][i] == 0.0
    ensures RetiredAreMax(m, LabelSet(labels))
    ensures AllBelowMax(metric, data) ==> LiveBelowMax(m, LabelSet(labels))
  {
    RangeCard(|labels|);
  }

  lemma MergeRowsEntry(m: Matrix, a: nat, b: nat, p: nat, q: nat)
    requires IsSquare(m, |m|) && a < |m| && b < |m| && p < |m| && q < |m|
    ensures MergeRows(m, a, b)[p][q] == MergedEntry(m, a, b, p, q)
  {
  }

  /** update_distance_matrix keeps the matrix symmetric. */
  lemma MergeKeepsSymmetry(m: Matrix, a: nat, b: nat)
    requires IsSquare(m, |m|) && a < |m| && b < |m|
    requires Symmetric(m)
    ensures Symmetric(MergeRows(m, a, b))
  {
  }

  /**
   * What update_distance_matrix does, entry by entry: the merged cluster
   * is at the smaller of the two old distances from every other index
   * (single linkage), row and column b hold DBL_MAX, and every other
   * entry is unchanged.
   */
  lemma MergeIsSingleLinkage(m: Matrix, a: nat, b: nat)
    requires IsSquare(m, |m|) && a < |m| && b < |m| && a != b
    ensures var r := MergeRows(m, a, b);
      (forall i :: 0 <= i < |m| && i != a && i != b ==>
        r[a][i] == r[i][a] && r[a][i] <= m[a][i] && r[a][i] <= m[b][i] &&
        (r[a][i] == m[a][i] || r[a][i] == m[b][i])) &&
      (forall i :: 0 <= i < |m| ==> r[b][i] == MaxDouble && r[i][b] == MaxDouble) &&
      (forall i, j :: 0 <= i < |m| && 0 <= j < |m| && i != a && i != b && j != a && j != b ==> r[i][j] == m[i][j]) &&
      r[a][a] == m[a][a]
  {
    var r := MergeRows(m, a, b);
    forall i | 0 <= i < |m| && i != a && i != b
      ensures r[a][i] == r[i][a] == Min(m[a][i], m[b][i])
    {
      MergeRowsEntry(m, a, b, a, i);
      MergeRowsEntry(m, a, b, i, a);
    }
    forall i | 0 <= i < |m|
      ensures r[b][i] == MaxDouble && r[i][b] == MaxDouble
    {
      MergeRowsEntry(m, a, b, b, i);
      MergeRowsEntry(m, a, b, i, b);
    }
    forall i, j | 0 <= i < |m| && 0 <= j < |m| && i != a && i != b && j != a && j != b
      ensures r[i][j] == m[i][j]
    {
      MergeRowsEntry(m, a, b, i, j);
    }
    MergeRowsEntry(m, a, b, a, a);
  }

  /** A pair below DBL_MAX joins two distinct live clusters. */
  lemma FoundPairIsLive(m: Matrix, active: set<int>, a: int, b: int)
    requires IsSquare(m, |m|) && RetiredAreMax(m, active)
    requires 0 <= a < b < |m| && m[a][b] < MaxDouble
    ensures a in active && b in active && a != b
  {
  }

  /** With finite distances the scan only comes up empty once a single cluster is left. */
  lemma NoPairMeansOneCluster(metric: (Row, Row) -> real, data: seq<Row>, m: Matrix, labels: seq<int>)
    requires IsSquare(m, |m|)
    requires forall i :: 0 <= i < |labels| ==> 0 <= labels[i] < |m|
    requires AllBelowMax(metric, data) ==> LiveBelowMax(m, LabelSet(labels))
    requires forall p, q :: 0 <= p < |m| && p < q < |m| ==> m[p][q] >= MaxDouble
    ensures AllBelowMax(metric, data) ==> |LabelSet(labels)| <= 1
  {
    if AllBelowMax(metric, data) && |LabelSet(labels)| >= 2 {
      var p, q := LivePair(m, labels);
      assert false;
    }
  }

  /** Two live labels with all live distances finite give a finite entry above the diagonal. */
  lemma LivePair(m: Matrix, labels: seq<int>) returns (p: int, q: int)
    requires IsSquare(m, |m|)
    requires forall i :: 0 <= i < |labels| ==> 0 <= labels[i] < |m|
    requires LiveBelowMax(m, LabelSet(labels))
    requires |LabelSet(labels)| >= 2
    ensures 0 <= p < q < |m| && m[p][q] < MaxDouble
    ensures p in LabelSet(labels) && q in LabelSet(labels)
  {
    var i, j := TwoLabels(labels);
    p, q := labels[i], labels[j];
    if q < p {
      p, q := q, p;
    }
    assert p in LabelSet(labels) && q in LabelSet(labels);
  }

  /** Two or more distinct labels means two samples with different labels. */
  lemma TwoLabels(labels: seq<int>) returns (i: int, j: int)
    requires |LabelSet(labels)| >= 2
    ensures 0 <= i < |labels| && 0 <= j < |labels| && labels[i] != labels[j]
  {
    if forall k :: 0 <= k < |labels| ==> labels[k] == labels[0] {
      SingleLabel(labels);
      assert false;
    }
    i := 0;
    j :| 0 <= j < |labels| && labels[j] != labels[0];
  }

  lemma SingleLabel(labels: seq<int>)
    requires |labels| > 0 && forall k :: 0 <= k < |labels| ==> labels[k] == labels[0]
    ensures LabelSet(labels) == {labels[0]}
  {
  }

  /** Relabelling b as a, both live and distinct, removes exactly the label b. */
  lemma RelabelMerges(labels: seq<int>, a: int, b: int)
    requires a in LabelSet(labels) && b in LabelSet(labels) && a != b
    ensures LabelSet(Relabel(labels, b, a)) == LabelSet(labels) - {b}
    ensures |LabelSet(Relabel(labels, b, a))| == |LabelSet(labels)| - 1
  {
    var r := Relabel(labels, b, a);
    forall x | x in LabelSet(labels) - {b}
      ensures x in LabelSet(r)
    {
      var i :| 0 <= i < |labels| && labels[i] == x;
      if x == a {
        assert r[i] == a;
      } else {
        assert r[i] == x;
      }
    }
    assert LabelSet(r) == LabelSet(labels) - {b};
  }

  /** Labels that name a sample carrying them. */
  ghost predicate Representatives(labels: seq<int>)
  {
    forall i :: 0 <= i < |labels| ==> 0 <= labels[i] < |labels| && labels[labels[i]] == labels[i]
  }

  /** One merge of live a and b keeps every invariant of the loop of fit and removes one label. */
  lemma MergeStepKeepsInvariants(metric: (Row, Row) -> real, data: seq<Row>, m: Matrix, labels: seq<int>, a: int, b: int)
    requires IsSquare(m, |labels|) && 0 <= a < |m| && 0 <= b < |m| && a != b
    requires a in LabelSet(labels) && b in LabelSet(labels)
    requires Representatives(labels)
    requires RetiredAreMax(m, LabelSet(labels))
    requires AllBelowMax(metric, data) ==> LiveBelowMax(m, LabelSet(labels))
    ensures Representatives(Relabel(labels, b, a))
    ensures |LabelSet(Relabel(labels, b, a))| == |LabelSet(labels)| - 1
    ensures RetiredAreMax(MergeRows(m, a, b), LabelSet(Relabel(labels, b, a)))
    ensures AllBelowMax(metric, data) ==> LiveBelowMax(MergeRows(m, a, b), LabelSet(Relabel(labels, b, a)))
  {
    var r := Relabel(labels, b, a);
    RelabelMerges(labels, a, b);
    MergeKeepsInvariants(metric, data, m, LabelSet(labels), a, b);
    var ka :| 0 <= ka < |labels| && labels[ka] == a;
    assert labels[a] == a;
    forall i | 0 <= i < |r|
      ensures 0 <= r[i] < |r| && r[r[i]] == r[i]
    {
      var c := labels[i];
      assert labels[c] == c;
    }
  }

  /** After a merge of live a and b, the matrix invariants of fit hold for the remaining labels. */
  lemma MergeKeepsInvariants(metric: (Row, Row) -> real, data: seq<Row>, m: Matrix, active: set<int>, a: int, b: int)
    requires IsSquare(m, |m|) && 0 <= a < |m| && 0 <= b < |m| && a != b
    requires a in active && b in active
    requires RetiredAreMax(m, active)
    requires AllBelowMax(metric, data) ==> LiveBelowMax(m, active)
    ensures RetiredAreMax(MergeRows(m, a, b), active - {b})
    ensures AllBelowMax(metric, data) ==> LiveBelowMax(MergeRows(m, a, b), active - {b})
  {
    var r := MergeRows(m, a, b);
    var live := active - {b};
    assert |r| == |m|;
    forall i: int, j: int | 0 <= i < |r| && 0 <= j < |r| && (i !in live || j !in live)
      ensures r[i][j] == MaxDouble
    {
      MergeRowsEntry(m, a, b, i, j);
      if i != b && j != b {
        if i == a && j != a {
          assert m[a][j] == MaxDouble && m[b][j] == MaxDouble;
        } else if j == a && i != a {
          assert m[a][i] == MaxDouble && m[b][i] == MaxDouble;
        }
      }
    }
    if AllBelowMax(metric, data) {
      forall i: int, j: int | 0 <= i < |r| && 0 <= j < |r| && i != j && i in live && j in live
        ensures r[i][j] < MaxDouble
      {
        MergeRowsEntry(m, a, b, i, j);
        if i == a {
          assert m[a][j] < MaxDouble;
        } else if j == a {
          assert m[a][i] < MaxDouble;
        }
      }
    }
  }
}
