/**
 * K-Means clustering of src/Clustering/K-Means/KMeans.cpp.
 *
 * A `KMeans<T, N>` object keeps the data, the number of clusters, the
 * centroids and the label of every point, and `run` alternates
 * `assign_clusters` (each point takes the index of its nearest centroid)
 * and `update_centroids` (each centroid becomes the mean of its points).
 * Points of dimension N are `seq<real>` of length `dim`. The clock-seeded
 * shuffle that picks the initial centroids is a permutation parameter, and
 * `std::sqrt` is a function parameter.
 */
module KMeansClustering {
  import opened Wrappers
  import opened Numeric
  import Distance

  type Point = seq<real>

  /** Every point has the dimension N of the template. */
  ghost predicate Shaped(points: seq<Point>, dim: nat)
  {
    forall i :: 0 <= i < |points| ==> |points[i]| == dim
  }

  /** The argument checks of the constructor, in the order it makes them. */
  datatype KMeansError = NonPositiveClusters | EmptyData | TooManyClusters

  /** `perm` reorders 0..n-1: what `std::shuffle` does to the copy of the data. */
  ghost predicate IsPermutation(perm: seq<nat>, n: nat)
  {
    |perm| == n &&
    (forall k :: 0 <= k < n ==> perm[k] < n) &&
    (forall k, l :: 0 <= k < l < n ==> perm[k] != perm[l])
  }

  /** Point(): every coordinate value-initialised to zero. */
  function Origin(dim: nat): Point
  {
    seq(dim, _ => 0.0)
  }

  /** Coordinatewise sum of the first dim coordinates. */
  function Add(a: Point, b: Point, dim: nat): Point
    requires dim <= |a| && dim <= |b|
  {
    seq(dim, k requires 0 <= k < dim => a[k] + b[k])
  }

  // ---------------------------------------------------------------------
  // Specification of the two steps
  // ---------------------------------------------------------------------

  /** calculate_distance: the root of the summed squared coordinate differences. */
  function PointDistance(sqrt: real -> real, a: Point, b: Point, dim: nat): real
    requires dim <= |a| && dim <= |b|
  {
    sqrt(Distance.SumSquaredDiff(a, b, dim))
  }

  /**
   * The (cluster_index, min_distance) pair of assign_clusters after the
   * first n centroids: starts at (0, DBL_MAX) and moves on a strict `<`.
   */
  function Scan(sqrt: real -> real, p: Point, cs: seq<Point>, dim: nat, n: nat): (nat, real)
    requires |p| == dim && Shaped(cs, dim) && n <= |cs|
  {
    if n == 0 then (0, MaxDouble)
    else
      var best := Scan(sqrt, p, cs, dim, n - 1);
      var d := PointDistance(sqrt, p, cs[n - 1], dim);
      if d < best.1 then (n - 1, d) else best
  }

  /** The label assign_clusters gives point p. */
  function Nearest(sqrt: real -> real, p: Point, cs: seq<Point>, dim: nat): nat
    requires |p| == dim && Shaped(cs, dim)
  {
    Scan(sqrt, p, cs, dim, |cs|).0
  }

  /** The labels assign_clusters computes for all points. */
  function Assign(sqrt: real -> real, data: seq<Point>, cs: seq<Point>, dim: nat): seq<nat>
    requires Shaped(data, dim) && Shaped(cs, dim)
  {
    seq(|data|, i requires 0 <= i < |data| => Nearest(sqrt, data[i], cs, dim))
  }

  /** How many of the first n points carry label c. */
  function CountOf(labels: seq<nat>, c: nat, n: nat): nat
    requires n <= |labels|
  {
    if n == 0 then 0 else CountOf(labels, c, n - 1) + (if labels[n - 1] == c then 1 else 0)
  }

  /** The coordinatewise sum of the first n points that carry label c. */
  function ClusterSum(data: seq<Point>, labels: seq<nat>, c: nat, n: nat, dim: nat): (s: Point)
    requires Shaped(data, dim) && |labels| == |data| && n <= |data|
    ensures |s| == dim
  {
    if n == 0 then Origin(dim)
    else
      var s := ClusterSum(data, labels, c, n - 1, dim);
      if labels[n - 1] == c then Add(s, data[n - 1], dim) else s
  }

  /** The new centroid of cluster c: the sum divided by the count, left alone when the count is 0. */
  function Centroid(data: seq<Point>, labels: seq<nat>, c: nat, dim: nat): (p: Point)
    requires Shaped(data, dim) && |labels| == |data|
    ensures |p| == dim
  {
    var s := ClusterSum(data, labels, c, |data|, dim);
    var count := CountOf(labels, c, |data|);
    if count == 0 then s else seq(dim, k requires 0 <= k < dim => s[k] / count as real)
  }

  /** The centroids update_centroids computes, one per cluster. */
  function Update(data: seq<Point>, labels: seq<nat>, k: nat, dim: nat): (cs: seq<Point>)
    requires Shaped(data, dim) && |labels| == |data|
    ensures |cs| == k && Shaped(cs, dim)
  {
    seq(k, c requires 0 <= c < k => Centroid(data, labels, c, dim))
  }

  /** The centroids after `rounds` assign-then-update rounds from cs. */
  function Rounds(sqrt: real -> real, data: seq<Point>, cs: seq<Point>, dim: nat, rounds: nat): (r: seq<Point>)
    requires Shaped(data, dim) && Shaped(cs, dim)
    ensures Shaped(r, dim) && |r| == |cs|
  {
    if rounds == 0 then cs
    else
      var before := Rounds(sqrt, data, cs, dim, rounds - 1);
      Update(data, Assign(sqrt, data, before, dim), |cs|, dim)
  }

  /** `step` applied n times to x. */
  function Iterate<T>(step: T -> T, x: T, n: nat): T
  {
    if n == 0 then x else step(Iterate(step, x, n - 1))
  }

  /** One assign-then-update round, as a total function on centroid sequences. */
  ghost function Round(sqrt: real -> real, data: seq<Point>, dim: nat): seq<Point> -> seq<Point>
  {
    cs => if Shaped(data, dim) && Shaped(cs, dim) then Update(data, Assign(sqrt, data, cs, dim), |cs|, dim) else cs
  }

  /** The last of rounds + 1 rounds is one assign-then-update round. */
  lemma RoundsLast(sqrt: real -> real, data: seq<Point>, cs: seq<Point>, dim: nat, rounds: nat)
    requires Shaped(data, dim) && Shaped(cs, dim)
    ensures Rounds(sqrt, data, cs, dim, rounds + 1) ==
            Update(data, Assign(sqrt, data, Rounds(sqrt, data, cs, dim, rounds), dim), |cs|, dim)
  {
  }

  /** The first k points of the data in shuffled order. */
  function Seeds(data: seq<Point>, perm: seq<nat>, k: nat): seq<Point>
    requires k <= |perm| && forall i :: 0 <= i < |perm| ==> perm[i] < |data|
  {
    seq(k, i requires 0 <= i < k => data[perm[i]])
  }

  /** labels_.resize(n): keeps the first entries, pads with 0. */
  function Resize(labels: seq<nat>, n: nat): (r: seq<nat>)
    ensures |r| == n
    ensures forall i :: 0 <= i < n && i < |labels| ==> r[i] == labels[i]
    ensures forall i :: |labels| <= i < n ==> r[i] == 0
  {
    if n <= |labels| then labels[..n] else labels + seq(n - |labels|, _ => 0)
  }

  // ---------------------------------------------------------------------
  // The class
  // ---------------------------------------------------------------------

  class KMeans {
    const dim: nat
    var numClusters: nat
    var data: seq<Point>
    var centroids: seq<Point>
    var labels: seq<nat>

    /** What holds after construction and between the public calls. */
    ghost predicate Valid()
      reads this
    {
      1 <= numClusters <= |data| &&
      Shaped(data, dim) &&
      |centroids| == numClusters && Shaped(centroids, dim) &&
      (forall i :: 0 <= i < |labels| ==> labels[i] < numClusters)
    }

    /**
     * The constructor past its checks: stores the arguments and runs
     * initialize_centroids, which takes the first num_clusters points of
     * the shuffled copy.
     */
    constructor (numClusters: nat, data: seq<Point>, dim: nat, perm: seq<nat>)
      requires 1 <= numClusters <= |data| && Shaped(data, dim)
      requires IsPermutation(perm, |data|)
      ensures Valid()
      ensures this.numClusters == numClusters && this.data == data && this.dim == dim
      ensures centroids == Seeds(data, perm, numClusters)
      ensures labels == []
    {
      this.dim := dim;
      this.numClusters := numClusters;
      this.data := data;
      labels := [];
      new;
      InitializeCentroids(perm);
    }

    /** initialize_centroids: the first num_clusters entries of the permuted data. */
    method InitializeCentroids(perm: seq<nat>)
      requires 1 <= numClusters <= |data| && Shaped(data, dim)
      requires IsPermutation(perm, |data|)
      requires forall i :: 0 <= i < |labels| ==> labels[i] < numClusters
      modifies this
      ensures Valid()
      ensures numClusters == old(numClusters) && data == old(data) && labels == old(labels)
      ensures centroids == Seeds(data, perm, numClusters)
    {
      var shuffled := Seeds(data, perm, |data|);
      centroids := shuffled[..numClusters];
    }

    /** calculate_distance: sums the squared differences of the N coordinates, then takes the root. */
    method CalculateDistance(sqrt: real -> real, a: Point, b: Point) returns (d: real)
      requires |a| == dim && |b| == dim
      ensures d == PointDistance(sqrt, a, b, dim)
    {
      var sum := 0.0;
      for i := 0 to dim
        invariant sum == Distance.SumSquaredDiff(a, b, i)
      {
        var diff := a[i] - b[i];
        sum := sum + diff * diff;
      }
      d := sqrt(sum);
    }

    /** assign_clusters: every point takes the index of its nearest centroid. */
    method AssignClusters(sqrt: real -> real)
      requires Valid()
      modifies this
      ensures Valid()
      ensures numClusters == old(numClusters) && data == old(data) && centroids == old(centroids)
      ensures labels == Assign(sqrt, data, centroids, dim)
    {
      labels := Resize(labels, |data|);
      for i := 0 to |data|
        invariant Valid() && |labels| == |data|
        invariant numClusters == old(numClusters) && data == old(data) && centroids == old(centroids)
        invariant forall k :: 0 <= k < i ==> labels[k] == Nearest(sqrt, data[k], centroids, dim)
      {
        var point, cs, k := data[i], centroids, numClusters;
        var minDistance := MaxDouble;
        var clusterIndex := 0;
        for j := 0 to k
          modifies {}
          invariant (clusterIndex, minDistance) == Scan(sqrt, point, cs, dim, j)
          invariant clusterIndex < k
        {
          var distance := CalculateDistance(sqrt, point, cs[j]);
          if distance < minDistance {
            minDistance := distance;
            clusterIndex := j;
          }
        }
        labels := labels[i := clusterIndex];
      }
    }

    /** update_centroids: each centroid becomes the mean of the points labelled with it. */
    method UpdateCentroids()
      requires Valid() && |labels| == |data|
      modifies this
      ensures Valid()
      ensures numClusters == old(numClusters) && data == old(data) && labels == old(labels)
      ensures centroids == Update(data, labels, numClusters, dim)
    {
      var pts, labs, k := data, labels, numClusters;
      var count := seq(k, _ => 0);
      var newCentroids := seq(k, _ => Origin(dim));
      for i := 0 to |pts|
        modifies {}
        invariant |count| == k && |newCentroids| == k
        invariant forall c :: 0 <= c < k ==> count[c] == CountOf(labs, c, i)
        invariant forall c :: 0 <= c < k ==> newCentroids[c] == ClusterSum(pts, labs, c, i, dim)
      {
        var l := labs[i];
        ghost var sum := ClusterSum(pts, labs, l, i, dim);
        for j := 0 to dim
          invariant |newCentroids| == k
          invariant forall c :: 0 <= c < k && c != l ==> newCentroids[c] == ClusterSum(pts, labs, c, i, dim)
          invariant |newCentroids[l]| == dim
          invariant forall x :: 0 <= x < j ==> newCentroids[l][x] == sum[x] + pts[i][x]
          invariant forall x :: j <= x < dim ==> newCentroids[l][x] == sum[x]
        {
          var row := newCentroids[l];
          newCentroids := newCentroids[l := row[j := row[j] + pts[i][j]]];
        }
        assert newCentroids[l] == Add(sum, pts[i], dim);
        count := count[l := count[l] + 1];
        AccumulateStep(pts, labs, i, dim, k, newCentroids);
      }
      for i := 0 to k
        modifies {}
        invariant |count| == k && |newCentroids| == k
        invariant forall c :: 0 <= c < k ==> count[c] == CountOf(labs, c, |pts|)
        invariant forall c :: 0 <= c < i ==> newCentroids[c] == Centroid(pts, labs, c, dim)
        invariant forall c :: i <= c < k ==> newCentroids[c] == ClusterSum(pts, labs, c, |pts|, dim)
      {
        if count[i] != 0 {
          ghost var sum := ClusterSum(pts, labs, i, |pts|, dim);
          for j := 0 to dim
            invariant |newCentroids| == k
            invariant forall c :: 0 <= c < i ==> newCentroids[c] == Centroid(pts, labs, c, dim)
            invariant forall c :: i < c < k ==> newCentroids[c] == ClusterSum(pts, labs, c, |pts|, dim)
            invariant |newCentroids[i]| == dim
            invariant forall x :: 0 <= x < j ==> newCentroids[i][x] == sum[x] / count[i] as real
            invariant forall x :: j <= x < dim ==> newCentroids[i][x] == sum[x]
          {
            var row := newCentroids[i];
            newCentroids := newCentroids[i := row[j := row[j] / count[i] as real]];
          }
          assert newCentroids[i] == Centroid(pts, labs, i, dim);
        }
      }
      centroids := newCentroids;
    }

    /** run: exactly `iterations` assign-then-update rounds; none when it is not positive. */
    method Run(sqrt: real -> real, iterations: int)
      requires Valid()
      modifies this
      ensures Valid()
      ensures numClusters == old(numClusters) && data == old(data)
      ensures iterations <= 0 ==> centroids == old(centroids) && labels == old(labels)
      ensures iterations > 0 ==>
        centroids == Rounds(sqrt, data, old(centroids), dim, iterations) &&
        labels == Assign(sqrt, data, Rounds(sqrt, data, old(centroids), dim, iterations - 1), dim)
    {
      ghost var points, start := data, centroids;
      var i := 0;
      while i < iterations
        invariant Valid()
        invariant numClusters == old(numClusters) && data == points
        invariant 0 <= i <= (if iterations > 0 then iterations else 0)
        invariant centroids == Rounds(sqrt, points, start, dim, i)
        invariant i == 0 ==> labels == old(labels)
        invariant i > 0 ==> labels == Assign(sqrt, points, Rounds(sqrt, points, start, dim, i - 1), dim)
      {
        AssignClusters(sqrt);
        UpdateCentroids();
        RoundsLast(sqrt, points, start, dim, i);
        assert (i + 1) - 1 == i;
        i := i + 1;
      }
      if iterations > 0 {
        assert i - 1 == iterations - 1;
      }
    }

    /** get_centroids. */
    function GetCentroids(): (cs: seq<Point>)
      requires Valid()
      reads this
      ensures |cs| == numClusters && Shaped(cs, dim)
    {
      centroids
    }
  }

  /** The constructor: rejects a non-positive count, empty data and more clusters than points. */
  method Create(numClusters: int, data: seq<Point>, dim: nat, perm: seq<nat>) returns (r: Result<KMeans, KMeansError>)
    requires Shaped(data, dim) && IsPermutation(perm, |data|)
    ensures numClusters <= 0 ==> r == Failure(NonPositiveClusters)
    ensures numClusters > 0 && data == [] ==> r == Failure(EmptyData)
    ensures numClusters > 0 && data != [] && numClusters > |data| ==> r == Failure(TooManyClusters)
    ensures r.Success? <==> 1 <= numClusters <= |data|
    ensures r.Success? ==>
      fresh(r.value) && r.value.Valid() &&
      r.value.numClusters == numClusters && r.value.data == data && r.value.labels == [] &&
      r.value.centroids == Seeds(data, perm, numClusters)
  {
    if numClusters <= 0 {
      return Failure(NonPositiveClusters);
    }
    if data == [] {
      return Failure(EmptyData);
    }
    if numClusters > |data| {
      return Failure(TooManyClusters);
    }
    var km := new KMeans(numClusters, data, dim, perm);
    return Success(km);
  }

  // ---------------------------------------------------------------------
  // Lemmas
  // ---------------------------------------------------------------------

  /** One more point: the sums and counts of the first i + 1 points from those of the first i. */
  lemma AccumulateStep(data: seq<Point>, labels: seq<nat>, i: nat, dim: nat, k: nat, sums: seq<Point>)
    requires Shaped(data, dim) && |labels| == |data| && i < |data|
    requires |sums| == k && labels[i] < k
    requires forall c :: 0 <= c < k && c != labels[i] ==> sums[c] == ClusterSum(data, labels, c, i, dim)
    requires sums[labels[i]] == Add(ClusterSum(data, labels, labels[i], i, dim), data[i], dim)
    ensures forall c :: 0 <= c < k ==> sums[c] == ClusterSum(data, labels, c, i + 1, dim)
  {
  }

  /**
   * What assign_clusters computes for one point. When no centroid is
   * closer than DBL_MAX the label stays 0; otherwise the label is a
   * centroid whose distance is the least, and every centroid before it is
   * strictly farther (ties go to the lowest index).
   */
  lemma {:induction false} ScanFindsNearest(sqrt: real -> real, p: Point, cs: seq<Point>, dim: nat, n: nat)
    requires |p| == dim && Shaped(cs, dim) && n <= |cs|
    ensures var best := Scan(sqrt, p, cs, dim, n);
      ((forall j :: 0 <= j < n ==> PointDistance(sqrt, p, cs[j], dim) >= MaxDouble) ==>
         best == (0, MaxDouble)) &&
      ((exists j :: 0 <= j < n && PointDistance(sqrt, p, cs[j], dim) < MaxDouble) ==>
         best.0 < n && best.1 == PointDistance(sqrt, p, cs[best.0], dim) &&
         (forall j :: 0 <= j < n ==> best.1 <= PointDistance(sqrt, p, cs[j], dim)) &&
         (forall j :: 0 <= j < best.0 ==> best.1 < PointDistance(sqrt, p, cs[j], dim)))
  {
    if n > 0 {
      ScanFindsNearest(sqrt, p, cs, dim, n - 1);
    }
  }

  /** Every label names one of the centroids. */
  lemma AssignInRange(sqrt: real -> real, data: seq<Point>, cs: seq<Point>, dim: nat)
    requires Shaped(data, dim) && Shaped(cs, dim) && cs != []
    ensures var labels := Assign(sqrt, data, cs, dim);
      |labels| == |data| && forall i :: 0 <= i < |labels| ==> labels[i] < |cs|
  {
    forall i | 0 <= i < |data|
      ensures Nearest(sqrt, data[i], cs, dim) < |cs|
    {
      ScanFindsNearest(sqrt, data[i], cs, dim, |cs|);
    }
  }

  /** Per-cluster counts of labels below k add up to the number of points. */
  function CountSum(labels: seq<nat>, k: nat, n: nat): nat
    requires n <= |labels|
  {
    if k == 0 then 0 else CountSum(labels, k - 1, n) + CountOf(labels, k - 1, n)
  }

  lemma {:induction false} CountSumStep(labels: seq<nat>, k: nat, n: nat)
    requires 0 < n <= |labels|
    ensures CountSum(labels, k, n) == CountSum(labels, k, n - 1) + (if labels[n - 1] < k then 1 else 0)
  {
    if k > 0 {
      CountSumStep(labels, k - 1, n);
    }
  }

  /** The counts of update_centroids sum to data_.size() when every label is in range. */
  lemma {:induction false} CountsSumToSize(labels: seq<nat>, k: nat, n: nat)
    requires n <= |labels|
    requires forall i :: 0 <= i < n ==> labels[i] < k
    ensures CountSum(labels, k, n) == n
  {
    if n == 0 {
      CountSumZero(labels, k);
    } else {
      CountsSumToSize(labels, k, n - 1);
      CountSumStep(labels, k, n);
    }
  }

  lemma {:induction false} CountSumZero(labels: seq<nat>, k: nat)
    ensures CountSum(labels, k, 0) == 0
  {
    if k > 0 {
      CountSumZero(labels, k - 1);
    }
  }

  /** A cluster nobody joined sums to the origin. */
  lemma {:induction false} EmptyClusterSum(data: seq<Point>, labels: seq<nat>, c: nat, n: nat, dim: nat)
    requires Shaped(data, dim) && |labels| == |data| && n <= |data|
    requires CountOf(labels, c, n) == 0
    ensures ClusterSum(data, labels, c, n, dim) == Origin(dim)
  {
    if n > 0 {
      EmptyClusterSum(data, labels, c, n - 1, dim);
    }
  }

  /** A cluster with no points gets a default-constructed Point, not its old centroid. */
  lemma EmptyClusterGetsOrigin(data: seq<Point>, labels: seq<nat>, c: nat, dim: nat)
    requires Shaped(data, dim) && |labels| == |data|
    requires CountOf(labels, c, |data|) == 0
    ensures Centroid(data, labels, c, dim) == Origin(dim)
  {
    EmptyClusterSum(data, labels, c, |data|, dim);
  }

  /** Coordinate k of the members of cluster c lies in [lo, hi]. */
  ghost predicate MembersWithin(data: seq<Point>, labels: seq<nat>, c: nat, coord: nat, lo: real, hi: real)
    requires |labels| == |data|
  {
    forall i :: 0 <= i < |data| && labels[i] == c ==> coord < |data[i]| && lo <= data[i][coord] <= hi
  }

  lemma {:induction false} ClusterSumBetween(data: seq<Point>, labels: seq<nat>, c: nat, n: nat, dim: nat,
                                             coord: nat, lo: real, hi: real)
    requires Shaped(data, dim) && |labels| == |data| && n <= |data| && coord < dim
    requires MembersWithin(data, labels, c, coord, lo, hi)
    ensures |ClusterSum(data, labels, c, n, dim)| == dim
    ensures Scaled(CountOf(labels, c, n), lo) <= ClusterSum(data, labels, c, n, dim)[coord] <=
            Scaled(CountOf(labels, c, n), hi)
  {
    if n > 0 {
      ClusterSumBetween(data, labels, c, n - 1, dim, coord, lo, hi);
      var prev := ClusterSum(data, labels, c, n - 1, dim)[coord];
      var m := CountOf(labels, c, n - 1);
      SumCoordinateStep(data, labels, c, n, dim, coord);
      if labels[n - 1] == c {
        assert lo <= data[n - 1][coord] <= hi;
        StepBetween(m, prev, data[n - 1][coord], lo, hi);
      }
    }
  }

  /** One more point changes coordinate coord of the sum and the count only if it carries label c. */
  lemma SumCoordinateStep(data: seq<Point>, labels: seq<nat>, c: nat, n: nat, dim: nat, coord: nat)
    requires Shaped(data, dim) && |labels| == |data| && 0 < n <= |data| && coord < dim
    ensures labels[n - 1] == c ==>
      ClusterSum(data, labels, c, n, dim)[coord] == ClusterSum(data, labels, c, n - 1, dim)[coord] + data[n - 1][coord] &&
      CountOf(labels, c, n) == CountOf(labels, c, n - 1) + 1
    ensures labels[n - 1] != c ==>
      ClusterSum(data, labels, c, n, dim) == ClusterSum(data, labels, c, n - 1, dim) &&
      CountOf(labels, c, n) == CountOf(labels, c, n - 1)
  {
  }

  /** count * v, kept apart so that the bounds below stay linear for the solver. */
  function Scaled(count: nat, v: real): real
  {
    count as real * v
  }

  lemma StepBetween(m: nat, t: real, x: real, lo: real, hi: real)
    requires Scaled(m, lo) <= t <= Scaled(m, hi) && lo <= x <= hi
    ensures Scaled(m + 1, lo) <= t + x <= Scaled(m + 1, hi)
  {
    Distribute(m as real, lo);
    Distribute(m as real, hi);
  }

  lemma Distribute(m: real, v: real)
    ensures (m + 1.0) * v == m * v + v
  {
  }

  lemma QuotientBetween(t: real, n: real, lo: real, hi: real)
    requires n > 0.0
    requires n * lo <= t <= n * hi
    ensures lo <= t / n <= hi
  {
    var q := t / n;
    assert t == n * q;
  }

  /**
   * The centroid of a non-empty cluster is a mean: each of its coordinates
   * lies between the least and the greatest of the members' (so it is the
   * common value when all members agree there).
   */
  lemma CentroidWithinMembers(data: seq<Point>, labels: seq<nat>, c: nat, dim: nat, coord: nat, lo: real, hi: real)
    requires Shaped(data, dim) && |labels| == |data| && coord < dim
    requires CountOf(labels, c, |data|) > 0
    requires MembersWithin(data, labels, c, coord, lo, hi)
    ensures |Centroid(data, labels, c, dim)| == dim
    ensures lo <= Centroid(data, labels, c, dim)[coord] <= hi
  {
    ClusterSumBetween(data, labels, c, |data|, dim, coord, lo, hi);
    var s := ClusterSum(data, labels, c, |data|, dim);
    MeanBetween(s[coord], CountOf(labels, c, |data|), lo, hi);
    CentroidCoordinate(data, labels, c, dim, coord);
  }

  /** A total of m values in [lo, hi], divided by m > 0, is in [lo, hi]. */
  lemma MeanBetween(t: real, m: nat, lo: real, hi: real)
    requires m > 0 && Scaled(m, lo) <= t <= Scaled(m, hi)
    ensures lo <= t / m as real <= hi
  {
    QuotientBetween(t, m as real, lo, hi);
  }

  /** A coordinate of the centroid of a non-empty cluster is the sum divided by the count. */
  lemma CentroidCoordinate(data: seq<Point>, labels: seq<nat>, c: nat, dim: nat, coord: nat)
    requires Shaped(data, dim) && |labels| == |data| && coord < dim
    requires CountOf(labels, c, |data|) > 0
    ensures |Centroid(data, labels, c, dim)| == dim
    ensures Centroid(data, labels, c, dim)[coord] ==
            ClusterSum(data, labels, c, |data|, dim)[coord] / CountOf(labels, c, |data|) as real
  {
  }

  /** Iterating composes: a steps then b steps is a + b steps. */
  lemma {:induction false} IterateCompose<T>(step: T -> T, x: T, a: nat, b: nat)
    ensures Iterate(step, x, a + b) == Iterate(step, Iterate(step, x, a), b)
  {
    if b > 0 {
      IterateCompose(step, x, a, b - 1);
    }
  }

  /** Rounds iterate one round. */
  lemma {:induction false} RoundsIterate(sqrt: real -> real, data: seq<Point>, cs: seq<Point>, dim: nat, rounds: nat)
    requires Shaped(data, dim) && Shaped(cs, dim)
    ensures Rounds(sqrt, data, cs, dim, rounds) == Iterate(Round(sqrt, data, dim), cs, rounds)
  {
    if rounds > 0 {
      RoundsIterate(sqrt, data, cs, dim, rounds - 1);
      var prev := Rounds(sqrt, data, cs, dim, rounds - 1);
      assert Iterate(Round(sqrt, data, dim), cs, rounds) == Round(sqrt, data, dim)(prev);
    }
  }

  /** Rounds compose: a rounds then b rounds is a + b rounds. */
  lemma RoundsCompose(sqrt: real -> real, data: seq<Point>, cs: seq<Point>, dim: nat, a: nat, b: nat)
    requires Shaped(data, dim) && Shaped(cs, dim)
    ensures Rounds(sqrt, data, cs, dim, a + b) == Rounds(sqrt, data, Rounds(sqrt, data, cs, dim, a), dim, b)
  {
    var mid := Rounds(sqrt, data, cs, dim, a);
    RoundsIterate(sqrt, data, cs, dim, a + b);
    RoundsIterate(sqrt, data, cs, dim, a);
    RoundsIterate(sqrt, data, mid, dim, b);
    IterateCompose(Round(sqrt, data, dim), cs, a, b);
  }

  /** Centroids that one round maps to themselves stay put for any number of rounds. */
  lemma {:induction false} FixedPointIsStable(sqrt: real -> real, data: seq<Point>, cs: seq<Point>, dim: nat, rounds: nat)
    requires Shaped(data, dim) && Shaped(cs, dim)
    requires Update(data, Assign(sqrt, data, cs, dim), |cs|, dim) == cs
    ensures Rounds(sqrt, data, cs, dim, rounds) == cs
  {
    if rounds > 0 {
      FixedPointIsStable(sqrt, data, cs, dim, rounds - 1);
    }
  }

  /** calculate_distance is symmetric and puts a point at sqrt(0) from itself. */
  lemma DistanceSymmetricAndReflexive(sqrt: real -> real, a: Point, b: Point, dim: nat)
    requires |a| == dim && |b| == dim
    ensures PointDistance(sqrt, a, b, dim) == PointDistance(sqrt, b, a, dim)
    ensures PointDistance(sqrt, a, a, dim) == sqrt(0.0)
  {
    Distance.SumSquaredDiffSymmetric(a, b, dim);
    Distance.SumSquaredDiffSelf(a, dim);
  }
}
