/**
 * HierarchicalCluster::perform_clustering of src/Clustering/hierarchical_cluster.cpp
 * (and of its near-identical copy Clustering/hierarchical_cluster.cpp).
 *
 * Every point starts in a cluster of its own; while there are more clusters
 * than asked for, the first pair (in scan order) at the least linkage
 * distance is merged into the earlier cluster of the pair and the later one
 * is erased. The clusters are values in a sequence (a `std::vector` of
 * `HierarchicalCluster` objects holds copies); a cluster is an id and a set
 * of point indices.
 *
 * The linkage functions visit the items of a `std::set` in ascending order;
 * here they visit the indices 0 .. |data|-1 and skip those not in the set,
 * which is the same sequence of points. The sequence of distances they see
 * is `CrossDistances`, and each linkage is a fold over it.
 */
module HierarchicalCluster {
  import opened Wrappers

  type Row = seq<real>

  /** A double that may be +infinity (the start value of single linkage). */
  datatype Dist = Finite(value: real) | Infinity

  /** The `<` of doubles on Dist. */
  predicate Below(a: Dist, b: Dist)
  {
    match a
    case Infinity => false
    case Finite(x) => b.Infinity? || x < b.value
  }

  datatype Linkage = Single | Complete | Average

  datatype ClusteringError =
    | EmptyData          // "Data is empty."
    | TooManyClusters    // "Number of clusters cannot be more than number of data points."
    | UnknownLinkage     // "Unknown linkage method."
    | ReadPastEnd        // num_clusters == 0: clusters[1] is read from a vector of one cluster

  /** A cluster of point indices with its id. */
  datatype HCluster = HCluster(id: nat, items: set<nat>)

  /** The linkage names calculate_distance accepts. */
  function ParseLinkage(s: string): (r: Option<Linkage>)
    ensures r == Some(Single) <==> s == "single"
    ensures r == Some(Complete) <==> s == "complete"
    ensures r == Some(Average) <==> s == "average"
  {
    if s == "single" then Some(Single)
    else if s == "complete" then Some(Complete)
    else if s == "average" then Some(Average)
    else None
  }

  // ---------------------------------------------------------------------
  // Specification of the linkages
  // ---------------------------------------------------------------------

  /** distance_metric(data[a], data[b]). */
  function PointDistance(metric: (Row, Row) -> real, data: seq<Row>, a: nat, b: nat): real
    requires a < |data| && b < |data|
  {
    metric(data[a], data[b])
  }

  /** The distances from point a to the members of B below nb, in ascending order of the member. */
  function RowDistances(metric: (Row, Row) -> real, data: seq<Row>, a: nat, B: set<nat>, nb: nat): seq<real>
    requires a < |data| && nb <= |data|
  {
    if nb == 0 then []
    else RowDistances(metric, data, a, B, nb - 1) + (if nb - 1 in B then [PointDistance(metric, data, a, nb - 1)] else [])
  }

  /** The distances of the cross pairs (a, b), a in A below na and b in B, in the order of the nested loops. */
  function CrossDistances(metric: (Row, Row) -> real, data: seq<Row>, A: set<nat>, B: set<nat>, na: nat): seq<real>
    requires na <= |data|
  {
    if na == 0 then []
    else
      var row := if na - 1 in A then RowDistances(metric, data, na - 1, B, |data|) else [];
      CrossDistances(metric, data, A, B, na - 1) + row
  }

  /** The running minimum from +infinity with a strict `<` update. */
  function MinFold(s: seq<real>): Dist
  {
    if s == [] then Infinity
    else
      var m := MinFold(s[..|s| - 1]);
      if Below(Finite(s[|s| - 1]), m) then Finite(s[|s| - 1]) else m
  }

  /** The running maximum from 0.0 with a strict `>` update. */
  function MaxFold(s: seq<real>): real
  {
    if s == [] then 0.0
    else
      var m := MaxFold(s[..|s| - 1]);
      if s[|s| - 1] > m then s[|s| - 1] else m
  }

  function Sum(s: seq<real>): real
  {
    if s == [] then 0.0 else Sum(s[..|s| - 1]) + s[|s| - 1]
  }

  /** total / count, or 0.0 when there is no pair. */
  function Mean(s: seq<real>): real
  {
    if |s| > 0 then Sum(s) / (|s| as real) else 0.0
  }

  /** The items of every cluster index the data. */
  ghost predicate ItemsIn(c: HCluster, n: nat)
  {
    forall x :: x in c.items ==> x < n
  }

  /** single_linkage, complete_linkage and average_linkage, by linkage. */
  function LinkageValue(lk: Linkage, metric: (Row, Row) -> real, data: seq<Row>, c1: HCluster, c2: HCluster): Dist
  {
    var s := CrossDistances(metric, data, c1.items, c2.items, |data|);
    match lk
    case Single => MinFold(s)
    case Complete => Finite(MaxFold(s))
    case Average => Finite(Mean(s))
  }

  /** calculate_distance: the linkage value, or the error for an unknown linkage name. */
  function LinkageDistance(linkage: string, metric: (Row, Row) -> real, data: seq<Row>,
                           c1: HCluster, c2: HCluster): Result<Dist, ClusteringError>
  {
    match ParseLinkage(linkage)
    case None => Failure(UnknownLinkage)
    case Some(lk) => Success(LinkageValue(lk, metric, data, c1, c2))
  }

  // ---------------------------------------------------------------------
  // Specification of the clustering state
  // ---------------------------------------------------------------------

  /**
   * The clusters partition {0 .. n-1}: none is empty, every index lies in
   * one of them, and no index lies in two.
   */
  ghost predicate Partition(cs: seq<HCluster>, n: nat)
  {
    (forall p :: 0 <= p < |cs| ==> cs[p].items != {} && ItemsIn(cs[p], n)) &&
    (forall x: nat :: x < n ==> Covered(cs, x)) &&
    (forall p, q, x :: 0 <= p < q < |cs| && x in cs[p].items ==> x !in cs[q].items)
  }

  /** Some cluster holds point x. */
  ghost predicate Covered(cs: seq<HCluster>, x: nat)
  {
    exists p :: 0 <= p < |cs| && x in cs[p].items
  }

  /** The sequence with the entry at j erased. */
  function ErasedAt<T>(s: seq<T>, j: nat): (r: seq<T>)
    requires j < |s|
    ensures |r| == |s| - 1
    ensures forall p :: 0 <= p < |r| ==> r[p] == if p < j then s[p] else s[p + 1]
  {
    s[..j] + s[j + 1..]
  }

  /**
   * Every cluster's id is its least item, and the clusters are in ascending
   * order of id (which is how the merges keep them).
   */
  ghost predicate IdsAreLeastItems(cs: seq<HCluster>)
  {
    (forall p :: 0 <= p < |cs| ==> cs[p].id in cs[p].items && forall x :: x in cs[p].items ==> cs[p].id <= x) &&
    (forall p, q :: 0 <= p < q < |cs| ==> cs[p].id < cs[q].id)
  }

  /** The linkage distance between the clusters at positions p and q. */
  function PairDist(lk: Linkage, metric: (Row, Row) -> real, data: seq<Row>, clusters: seq<HCluster>, p: nat, q: nat): Dist
    requires p < |clusters| && q < |clusters|
  {
    LinkageValue(lk, metric, data, clusters[p], clusters[q])
  }

  /** Pair (p, q) comes before pair (i, j) in the scan order of the nested loops. */
  predicate ScannedBefore(p: nat, q: nat, i: nat, j: nat)
  {
    p < i || (p == i && q < j)
  }

  /**
   * The nested scan of perform_clustering as a function: from pair (i, j)
   * on, over the pairs p < q in row-major order, a pair replaces the best
   * so far only when its linkage distance is strictly below it.
   */
  function ScanFrom(lk: Linkage, metric: (Row, Row) -> real, data: seq<Row>, cs: seq<HCluster>,
                    i: nat, j: nat, best: (nat, nat, Dist)): (r: (nat, nat, Dist))
    requires i < j && best.0 < best.1 < |cs|
    ensures r.0 < r.1 < |cs|
    decreases |cs| - i, |cs| - j
  {
    if i >= |cs| then best
    else if j >= |cs| then ScanFrom(lk, metric, data, cs, i + 1, i + 2, best)
    else
      var d := PairDist(lk, metric, data, cs, i, j);
      ScanFrom(lk, metric, data, cs, i, j + 1, if Below(d, best.2) then (i, j, d) else best)
  }

  /** One entry of the scan. */
  lemma ScanStep(lk: Linkage, metric: (Row, Row) -> real, data: seq<Row>, cs: seq<HCluster>,
                 i: nat, j: nat, best: (nat, nat, Dist))
    requires i < j < |cs| && best.0 < best.1 < |cs|
    ensures var d := PairDist(lk, metric, data, cs, i, j);
      ScanFrom(lk, metric, data, cs, i, j, best) ==
      ScanFrom(lk, metric, data, cs, i, j + 1, if Below(d, best.2) then (i, j, d) else best)
  {
  }

  /** The end of a row of the scan. */
  lemma ScanRowEnd(lk: Linkage, metric: (Row, Row) -> real, data: seq<Row>, cs: seq<HCluster>,
                   i: nat, best: (nat, nat, Dist))
    requires i < |cs| && best.0 < best.1 < |cs|
    ensures ScanFrom(lk, metric, data, cs, i, |cs|, best) == ScanFrom(lk, metric, data, cs, i + 1, i + 2, best)
  {
  }

  /**
   * The same scan over any distance on the pairs of n clusters: what the
   * nested loops do does not depend on how a pair's distance is obtained.
   */
  function Scan(dist: (nat, nat) -> Dist, n: nat, i: nat, j: nat, best: (nat, nat, Dist)): (r: (nat, nat, Dist))
    requires i < j && best.0 < best.1 < n
    ensures r.0 < r.1 < n
    decreases n - i, n - j
  {
    if i >= n then best
    else if j >= n then Scan(dist, n, i + 1, i + 2, best)
    else Scan(dist, n, i, j + 1, if Below(dist(i, j), best.2) then (i, j, dist(i, j)) else best)
  }

  /**
   * The state of the scan at pair (i, j): the best pair is at its own
   * distance, no pair scanned before (i, j) is below it, and it is below
   * every pair scanned before it.
   */
  ghost predicate Ready(dist: (nat, nat) -> Dist, n: nat, i: nat, j: nat, best: (nat, nat, Dist))
  {
    best.0 < best.1 < n && best.2 == dist(best.0, best.1) &&
    (forall p: nat, q: nat :: p < q < n && ScannedBefore(p, q, i, j) ==> !Below(dist(p, q), best.2)) &&
    (forall p: nat, q: nat :: p < q < n && ScannedBefore(p, q, best.0, best.1) ==> Below(best.2, dist(p, q)))
  }

  /** (r.0, r.1) is the first pair in scan order at the least distance r.2. */
  ghost predicate FirstClosest(dist: (nat, nat) -> Dist, n: nat, r: (nat, nat, Dist))
  {
    r.0 < r.1 < n && r.2 == dist(r.0, r.1) &&
    (forall p: nat, q: nat :: p < q < n ==> !Below(dist(p, q), r.2)) &&
    (forall p: nat, q: nat :: p < q < n && ScannedBefore(p, q, r.0, r.1) ==> Below(r.2, dist(p, q)))
  }

  /** The scan finds the first closest pair. */
  lemma {:induction false} ScanFindsFirstClosest(dist: (nat, nat) -> Dist, n: nat, i: nat, j: nat, best: (nat, nat, Dist))
    requires i < j && Ready(dist, n, i, j, best)
    ensures FirstClosest(dist, n, Scan(dist, n, i, j, best))
    decreases n - i, n - j
  {
    if i >= n {
      assert forall p: nat, q: nat :: p < q < n ==> ScannedBefore(p, q, i, j);
    } else if j >= n {
      ReadyNextRow(dist, n, i, j, best);
      ScanFindsFirstClosest(dist, n, i + 1, i + 2, best);
    } else if Below(dist(i, j), best.2) {
      ReadyTake(dist, n, i, j, best);
      ScanFindsFirstClosest(dist, n, i, j + 1, (i, j, dist(i, j)));
    } else {
      ReadyKeep(dist, n, i, j, best);
      ScanFindsFirstClosest(dist, n, i, j + 1, best);
    }
  }

  /** Past the end of row i the scan moves on to row i + 1. */
  lemma ReadyNextRow(dist: (nat, nat) -> Dist, n: nat, i: nat, j: nat, best: (nat, nat, Dist))
    requires i < n <= j && Ready(dist, n, i, j, best)
    ensures Ready(dist, n, i + 1, i + 2, best)
  {
  }

  /** A pair below the best so far becomes the best. */
  lemma ReadyTake(dist: (nat, nat) -> Dist, n: nat, i: nat, j: nat, best: (nat, nat, Dist))
    requires i < j < n && Ready(dist, n, i, j, best) && Below(dist(i, j), best.2)
    ensures Ready(dist, n, i, j + 1, (i, j, dist(i, j)))
  {
    BelowOrder(dist(i, j), best.2);
  }

  /** A pair not below the best so far leaves it in place. */
  lemma ReadyKeep(dist: (nat, nat) -> Dist, n: nat, i: nat, j: nat, best: (nat, nat, Dist))
    requires i < j < n && Ready(dist, n, i, j, best) && !Below(dist(i, j), best.2)
    ensures Ready(dist, n, i, j + 1, best)
  {
  }

  /** The linkage distances of the clusters, as a distance on all pairs (+infinity outside). */
  function Dists(lk: Linkage, metric: (Row, Row) -> real, data: seq<Row>, cs: seq<HCluster>): (nat, nat) -> Dist
  {
    (p: nat, q: nat) => if p < |cs| && q < |cs| then PairDist(lk, metric, data, cs, p, q) else Infinity
  }

  /** The scan of perform_clustering is the scan over the linkage distances. */
  lemma {:induction false} ScanFromIsScan(lk: Linkage, metric: (Row, Row) -> real, data: seq<Row>, cs: seq<HCluster>,
                                          i: nat, j: nat, best: (nat, nat, Dist))
    requires i < j && best.0 < best.1 < |cs|
    ensures ScanFrom(lk, metric, data, cs, i, j, best) == Scan(Dists(lk, metric, data, cs), |cs|, i, j, best)
    decreases |cs| - i, |cs| - j
  {
    if i < |cs| && j >= |cs| {
      ScanFromIsScan(lk, metric, data, cs, i + 1, i + 2, best);
    } else if i < |cs| {
      var d := PairDist(lk, metric, data, cs, i, j);
      assert Dists(lk, metric, data, cs)(i, j) == d;
      ScanStep(lk, metric, data, cs, i, j, best);
      ScanFromIsScan(lk, metric, data, cs, i, j + 1, if Below(d, best.2) then (i, j, d) else best);
    }
  }

  /** The first closest pair over the linkage distances, stated on the clusters. */
  lemma FirstClosestPair(lk: Linkage, metric: (Row, Row) -> real, data: seq<Row>, cs: seq<HCluster>, r: (nat, nat, Dist))
    requires FirstClosest(Dists(lk, metric, data, cs), |cs|, r)
    ensures r.0 < r.1 < |cs|
    ensures r.2 == PairDist(lk, metric, data, cs, r.0, r.1)
    ensures forall p, q :: 0 <= p < q < |cs| ==> !Below(PairDist(lk, metric, data, cs, p, q), r.2)
    ensures forall p, q :: 0 <= p < q < |cs| && ScannedBefore(p, q, r.0, r.1) ==>
      Below(r.2, PairDist(lk, metric, data, cs, p, q))
  {
    var dist := Dists(lk, metric, data, cs);
    forall p: nat, q: nat | p < q < |cs|
      ensures dist(p, q) == PairDist(lk, metric, data, cs, p, q)
    {
    }
  }

  /** The clusters of the first loop of perform_clustering: cluster i is ({i}, id i). */
  function Initial(n: nat): seq<HCluster>
  {
    seq(n, i requires 0 <= i => HCluster(i, {i}))
  }

  /**
   * What the merge loop of perform_clustering makes of `cs` for a valid
   * linkage: while more than k clusters (and at least two) remain, the
   * first closest pair (i, j) of the scan started at (0, 1) is merged into
   * position i, and position j is erased.
   */
  function Agglomerate(lk: Linkage, metric: (Row, Row) -> real, data: seq<Row>, cs: seq<HCluster>, k: nat): (r: seq<HCluster>)
    ensures 1 <= k <= |cs| ==> |r| == k
    ensures |cs| <= k ==> r == cs
    decreases |cs|
  {
    if |cs| <= k || |cs| < 2 then cs
    else
      var pick := ScanFrom(lk, metric, data, cs, 0, 1, (0, 1, PairDist(lk, metric, data, cs, 0, 1)));
      var i, j := pick.0, pick.1;
      Agglomerate(lk, metric, data, ErasedAt(cs[i := HCluster(cs[i].id, cs[i].items + cs[j].items)], j), k)
  }

  // ---------------------------------------------------------------------
  // The operations
  // ---------------------------------------------------------------------

  /** single_linkage: the least cross-pair distance, +infinity when there is no pair. */
  method SingleLinkage(c1: HCluster, c2: HCluster, data: seq<Row>, metric: (Row, Row) -> real) returns (minDistance: Dist)
    ensures minDistance == MinFold(CrossDistances(metric, data, c1.items, c2.items, |data|))
  {
    var n := |data|;
    minDistance := Infinity;
    for item1 := 0 to n
      invariant minDistance == MinFold(CrossDistances(metric, data, c1.items, c2.items, item1))
    {
      CrossStep(metric, data, c1.items, c2.items, item1);
      if item1 in c1.items {
        ghost var before := CrossDistances(metric, data, c1.items, c2.items, item1);
        assert before + RowDistances(metric, data, item1, c2.items, 0) == before;
        for item2 := 0 to n
          invariant minDistance == MinFold(before + RowDistances(metric, data, item1, c2.items, item2))
        {
          RowStep(before, metric, data, item1, c2.items, item2);
          if item2 in c2.items {
            var distance := metric(data[item1], data[item2]);
            AppendOne(before + RowDistances(metric, data, item1, c2.items, item2), distance);
            if Below(Finite(distance), minDistance) {
              minDistance := Finite(distance);
            }
          }
        }
      }
    }
  }

  /** complete_linkage: the greatest cross-pair distance, starting from 0.0. */
  method CompleteLinkage(c1: HCluster, c2: HCluster, data: seq<Row>, metric: (Row, Row) -> real) returns (maxDistance: real)
    ensures maxDistance == MaxFold(CrossDistances(metric, data, c1.items, c2.items, |data|))
  {
    var n := |data|;
    maxDistance := 0.0;
    for item1 := 0 to n
      invariant maxDistance == MaxFold(CrossDistances(metric, data, c1.items, c2.items, item1))
    {
      CrossStep(metric, data, c1.items, c2.items, item1);
      if item1 in c1.items {
        ghost var before := CrossDistances(metric, data, c1.items, c2.items, item1);
        assert before + RowDistances(metric, data, item1, c2.items, 0) == before;
        for item2 := 0 to n
          invariant maxDistance == MaxFold(before + RowDistances(metric, data, item1, c2.items, item2))
        {
          RowStep(before, metric, data, item1, c2.items, item2);
          if item2 in c2.items {
            var distance := metric(data[item1], data[item2]);
            AppendOne(before + RowDistances(metric, data, item1, c2.items, item2), distance);
            if distance > maxDistance {
              maxDistance := distance;
            }
          }
        }
      }
    }
  }

  /** average_linkage: total distance over the number of cross pairs, or 0.0 for none. */
  method AverageLinkage(c1: HCluster, c2: HCluster, data: seq<Row>, metric: (Row, Row) -> real) returns (average: real)
    ensures average == Mean(CrossDistances(metric, data, c1.items, c2.items, |data|))
  {
    var n := |data|;
    var totalDistance := 0.0;
    var count: nat := 0;
    for item1 := 0 to n
      invariant totalDistance == Sum(CrossDistances(metric, data, c1.items, c2.items, item1))
      invariant count == |CrossDistances(metric, data, c1.items, c2.items, item1)|
    {
      CrossStep(metric, data, c1.items, c2.items, item1);
      if item1 in c1.items {
        ghost var before := CrossDistances(metric, data, c1.items, c2.items, item1);
        assert before + RowDistances(metric, data, item1, c2.items, 0) == before;
        for item2 := 0 to n
          invariant totalDistance == Sum(before + RowDistances(metric, data, item1, c2.items, item2))
          invariant count == |before + RowDistances(metric, data, item1, c2.items, item2)|
        {
          RowStep(before, metric, data, item1, c2.items, item2);
          if item2 in c2.items {
            AppendOne(before + RowDistances(metric, data, item1, c2.items, item2), metric(data[item1], data[item2]));
            totalDistance := totalDistance + metric(data[item1], data[item2]);
            count := count + 1;
          }
        }
      }
    }
    average := if count > 0 then totalDistance / count as real else 0.0;
  }

  /** calculate_distance: dispatch on the linkage name; an unknown name is an error. */
  method CalculateDistance(c1: HCluster, c2: HCluster, data: seq<Row>, metric: (Row, Row) -> real, linkage: string)
    returns (r: Result<Dist, ClusteringError>)
    ensures r == LinkageDistance(linkage, metric, data, c1, c2)
    ensures r.Failure? <==> linkage != "single" && linkage != "complete" && linkage != "average"
  {
    if linkage == "single" {
      var d := SingleLinkage(c1, c2, data, metric);
      r := Success(d);
    } else if linkage == "complete" {
      var d := CompleteLinkage(c1, c2, data, metric);
      r := Success(Finite(d));
    } else if linkage == "average" {
      var d := AverageLinkage(c1, c2, data, metric);
      r := Success(Finite(d));
    } else {
      r := Failure(UnknownLinkage);
    }
  }

  /** merge_clusters: every item of cluster2 is added to cluster1, which keeps its id. */
  method MergeClusters(cluster1: HCluster, cluster2: HCluster) returns (merged: HCluster)
    ensures merged.id == cluster1.id
    ensures merged.items == cluster1.items + cluster2.items
  {
    merged := cluster1;
    var rest := cluster2.items;
    while rest != {}
      invariant merged.id == cluster1.id
      invariant merged.items + rest == cluster1.items + cluster2.items
      invariant cluster1.items <= merged.items
      invariant rest <= cluster2.items
      decreases rest
    {
      var item :| item in rest;
      merged := merged.(items := merged.items + {item});
      rest := rest - {item};
    }
  }

  /** The initial loop: cluster i holds {i} and has id i. */
  method Singletons(n: nat) returns (clusters: seq<HCluster>)
    ensures |clusters| == n
    ensures forall i :: 0 <= i < n ==> clusters[i] == HCluster(i, {i})
  {
    clusters := [];
    for i := 0 to n
      invariant |clusters| == i
      invariant forall k :: 0 <= k < i ==> clusters[k] == HCluster(k, {k})
    {
      var cluster := HCluster(i, {});
      cluster := cluster.(items := cluster.items + {i});
      clusters := clusters + [cluster];
    }
  }

  /**
   * The scan for the closest pair, started from (0, 1) at distance
   * `start`: the result is the first pair in scan order at the least
   * linkage distance.
   */
  method ClosestPair(clusters: seq<HCluster>, data: seq<Row>, metric: (Row, Row) -> real, lk: Linkage, start: Dist)
    returns (minI: nat, minJ: nat, minDistance: Dist)
    requires |clusters| >= 2
    requires start == LinkageValue(lk, metric, data, clusters[0], clusters[1])
    ensures minI < minJ < |clusters|
    ensures minDistance == PairDist(lk, metric, data, clusters, minI, minJ)
    ensures forall p, q :: 0 <= p < q < |clusters| ==>
      !Below(PairDist(lk, metric, data, clusters, p, q), minDistance)
    ensures forall p, q :: 0 <= p < q < |clusters| && ScannedBefore(p, q, minI, minJ) ==>
      Below(minDistance, PairDist(lk, metric, data, clusters, p, q))
    ensures (minI, minJ, minDistance) == ScanFrom(lk, metric, data, clusters, 0, 1, (0, 1, start))
  {
    minI, minJ, minDistance := 0, 1, start;
    var m := |clusters|;
    ghost var goal := ScanFrom(lk, metric, data, clusters, 0, 1, (0, 1, start));
    for i := 0 to m
      invariant minI < minJ < m
      invariant ScanFrom(lk, metric, data, clusters, i, i + 1, (minI, minJ, minDistance)) == goal
    {
      minI, minJ, minDistance := ScanRow(clusters, data, metric, lk, i, minI, minJ, minDistance);
    }
    var dist := Dists(lk, metric, data, clusters);
    ScanFromIsScan(lk, metric, data, clusters, 0, 1, (0, 1, start));
    assert Ready(dist, m, 0, 1, (0, 1, start));
    ScanFindsFirstClosest(dist, m, 0, 1, (0, 1, start));
    FirstClosestPair(lk, metric, data, clusters, (minI, minJ, minDistance));
  }

  /** The inner loop of the scan, over the pairs (i, j) with i < j. */
  method ScanRow(clusters: seq<HCluster>, data: seq<Row>, metric: (Row, Row) -> real, lk: Linkage,
                 i: nat, minI: nat, minJ: nat, minDistance: Dist)
    returns (rowI: nat, rowJ: nat, rowDistance: Dist)
    requires i < |clusters| && minI < minJ < |clusters|
    ensures rowI < rowJ < |clusters|
    ensures ScanFrom(lk, metric, data, clusters, i + 1, i + 2, (rowI, rowJ, rowDistance)) ==
            ScanFrom(lk, metric, data, clusters, i, i + 1, (minI, minJ, minDistance))
  {
    rowI, rowJ, rowDistance := minI, minJ, minDistance;
    var m := |clusters|;
    for j := i + 1 to m
      invariant rowI < rowJ < m
      invariant ScanFrom(lk, metric, data, clusters, i, j, (rowI, rowJ, rowDistance)) ==
                ScanFrom(lk, metric, data, clusters, i, i + 1, (minI, minJ, minDistance))
    {
      var distance := LinkageOf(clusters[i], clusters[j], data, metric, lk);
      ScanStep(lk, metric, data, clusters, i, j, (rowI, rowJ, rowDistance));
      if Below(distance, rowDistance) {
        rowDistance := distance;
        rowI, rowJ := i, j;
      }
    }
    ScanRowEnd(lk, metric, data, clusters, i, (rowI, rowJ, rowDistance));
  }

  /** calculate_distance once the linkage name is known to be valid. */
  method LinkageOf(c1: HCluster, c2: HCluster, data: seq<Row>, metric: (Row, Row) -> real, lk: Linkage) returns (d: Dist)
    ensures d == LinkageValue(lk, metric, data, c1, c2)
  {
    match lk
    case Single =>
      d := SingleLinkage(c1, c2, data, metric);
    case Complete =>
      var c := CompleteLinkage(c1, c2, data, metric);
      d := Finite(c);
    case Average =>
      var a := AverageLinkage(c1, c2, data, metric);
      d := Finite(a);
  }

  /**
   * perform_clustering: the input errors, then merges until num_clusters
   * clusters remain. The result partitions the point indices.
   */
  method PerformClustering(data: seq<Row>, numClusters: nat, metric: (Row, Row) -> real, linkage: string)
    returns (r: Result<seq<HCluster>, ClusteringError>)
    ensures data == [] ==> r == Failure(EmptyData)
    ensures data != [] && numClusters > |data| ==> r == Failure(TooManyClusters)
    ensures 2 <= |data| && numClusters < |data| && ParseLinkage(linkage) == None ==> r == Failure(UnknownLinkage)
    ensures data != [] && numClusters == 0 && (|data| == 1 || ParseLinkage(linkage).Some?) ==> r == Failure(ReadPastEnd)
    ensures 1 <= numClusters <= |data| && (numClusters == |data| || ParseLinkage(linkage).Some?) ==> r.Success?
    ensures r.Success? ==> |r.value| == numClusters && Partition(r.value, |data|) && IdsAreLeastItems(r.value)
    ensures r.Success? && ParseLinkage(linkage).Some? ==>
      r.value == Agglomerate(ParseLinkage(linkage).value, metric, data, Initial(|data|), numClusters)
    ensures r.Success? && ParseLinkage(linkage).None? ==> r.value == Initial(|data|)
  {
    if data == [] {
      return Failure(EmptyData);
    }
    if numClusters > |data| {
      return Failure(TooManyClusters);
    }
    var n := |data|;
    var clusters := Singletons(n);
    SingletonsPartition(clusters, n);
    assert clusters == Initial(n);
    while |clusters| > numClusters
      invariant 1 <= |clusters| <= n && numClusters <= |clusters|
      invariant Partition(clusters, n) && IdsAreLeastItems(clusters)
      invariant |clusters| < n ==> ParseLinkage(linkage).Some?
      invariant ParseLinkage(linkage).Some? ==>
        Agglomerate(ParseLinkage(linkage).value, metric, data, clusters, numClusters) ==
        Agglomerate(ParseLinkage(linkage).value, metric, data, Initial(n), numClusters)
      invariant ParseLinkage(linkage).None? ==> clusters == Initial(n)
      decreases |clusters|
    {
      if |clusters| < 2 {
        return Failure(ReadPastEnd);
      }
      var first := CalculateDistance(clusters[0], clusters[1], data, metric, linkage);
      if first.Failure? {
        return Failure(first.error);
      }
      var lk := ParseLinkage(linkage).value;
      var minI, minJ, _ := ClosestPair(clusters, data, metric, lk, first.value);
      var merged := MergeClusters(clusters[minI], clusters[minJ]);
      MergeKeepsPartition(clusters, minI, minJ, merged, n);
      clusters := ErasedAt(clusters[minI := merged], minJ);
    }
    return Success(clusters);
  }

  // ---------------------------------------------------------------------
  // Lemmas
  // ---------------------------------------------------------------------

  /** Appending one distance is one more step of each fold. */
  lemma AppendOne(s: seq<real>, x: real)
    ensures (s + [x])[..|s|] == s
    ensures MinFold(s + [x]) == if Below(Finite(x), MinFold(s)) then Finite(x) else MinFold(s)
    ensures MaxFold(s + [x]) == if x > MaxFold(s) then x else MaxFold(s)
    ensures Sum(s + [x]) == Sum(s) + x
  {
    assert (s + [x])[..|s|] == s;
  }

  /** One more step of the outer loop appends the row of item1, if it is in A. */
  lemma CrossStep(metric: (Row, Row) -> real, data: seq<Row>, A: set<nat>, B: set<nat>, na: nat)
    requires na < |data|
    ensures CrossDistances(metric, data, A, B, na + 1) ==
      CrossDistances(metric, data, A, B, na) + RowDistances(metric, data, na, B, |data|) || na !in A
    ensures na !in A ==> CrossDistances(metric, data, A, B, na + 1) == CrossDistances(metric, data, A, B, na)
  {
    assert CrossDistances(metric, data, A, B, na) + [] == CrossDistances(metric, data, A, B, na);
  }

  /** One more step of the inner loop appends the distance to item2, if it is in B. */
  lemma RowStep(before: seq<real>, metric: (Row, Row) -> real, data: seq<Row>, a: nat, B: set<nat>, nb: nat)
    requires a < |data| && nb < |data|
    ensures nb in B ==>
      before + RowDistances(metric, data, a, B, nb + 1) ==
      (before + RowDistances(metric, data, a, B, nb)) + [PointDistance(metric, data, a, nb)]
    ensures nb !in B ==> before + RowDistances(metric, data, a, B, nb + 1) == before + RowDistances(metric, data, a, B, nb)
  {
    assert RowDistances(metric, data, a, B, nb) + [] == RowDistances(metric, data, a, B, nb);
  }

  /**
   * Below is a strict order: after a strict improvement from b to a, what
   * was not below b is not below a, and lies strictly above a.
   */
  lemma BelowOrder(a: Dist, b: Dist)
    requires Below(a, b)
    ensures forall c :: !Below(c, b) ==> !Below(c, a) && Below(a, c)
  {
  }

  lemma SingletonsPartition(cs: seq<HCluster>, n: nat)
    requires |cs| == n
    requires forall i :: 0 <= i < n ==> cs[i] == HCluster(i, {i})
    ensures Partition(cs, n) && IdsAreLeastItems(cs)
  {
    forall x: nat | x < n
      ensures Covered(cs, x)
    {
      assert x in cs[x].items;
    }
  }

  /**
   * Merging cluster j into cluster i (i < j) and erasing j keeps the
   * partition and the ids, and removes exactly one cluster.
   */
  lemma MergeKeepsPartition(cs: seq<HCluster>, i: nat, j: nat, merged: HCluster, n: nat)
    requires i < j < |cs|
    requires Partition(cs, n) && IdsAreLeastItems(cs)
    requires merged.id == cs[i].id && merged.items == cs[i].items + cs[j].items
    ensures var next := ErasedAt(cs[i := merged], j);
      |next| == |cs| - 1 && Partition(next, n) && IdsAreLeastItems(next)
  {
    var next := ErasedAt(cs[i := merged], j);
    MergeCovers(cs, i, j, merged, n);
    MergeDisjoint(cs, i, j, merged, n);
    forall p | 0 <= p < |next|
      ensures next[p].items != {} && ItemsIn(next[p], n)
    {
      if p != i {
        assert next[p] == cs[if p < j then p else p + 1];
      }
    }
    MergeIds(cs, i, j, merged);
  }

  lemma MergeCovers(cs: seq<HCluster>, i: nat, j: nat, merged: HCluster, n: nat)
    requires i < j < |cs|
    requires forall x: nat :: x < n ==> Covered(cs, x)
    requires merged.items == cs[i].items + cs[j].items
    ensures var next := ErasedAt(cs[i := merged], j);
      forall x: nat :: x < n ==> Covered(next, x)
  {
    var next := ErasedAt(cs[i := merged], j);
    forall x: nat | x < n
      ensures Covered(next, x)
    {
      assert Covered(cs, x);
      var p :| 0 <= p < |cs| && x in cs[p].items;
      if p == j || p == i {
        assert x in next[i].items;
      } else if p < j {
        assert x in next[p].items;
      } else {
        assert x in next[p - 1].items;
      }
    }
  }

  lemma MergeDisjoint(cs: seq<HCluster>, i: nat, j: nat, merged: HCluster, n: nat)
    requires i < j < |cs|
    requires forall p, q, x :: 0 <= p < q < |cs| && x in cs[p].items ==> x !in cs[q].items
    requires merged.items == cs[i].items + cs[j].items
    ensures var next := ErasedAt(cs[i := merged], j);
      forall p, q, x :: 0 <= p < q < |next| && x in next[p].items ==> x !in next[q].items
  {
    var next := ErasedAt(cs[i := merged], j);
    forall p, q, x | 0 <= p < q < |next| && x in next[p].items
      ensures x !in next[q].items
    {
      var p', q' := if p < j then p else p + 1, if q < j then q else q + 1;
      assert p' < q' && p' != j && q' != j;
      if p == i {
        assert x in cs[i].items || x in cs[j].items;
        if x in cs[j].items && j < q' {
          assert x !in cs[q'].items;
        } else if x in cs[j].items {
          assert x !in cs[j].items || x !in cs[q'].items;
        }
      } else if q == i {
        assert next[q].items == cs[i].items + cs[j].items;
        assert x in cs[p'].items;
      } else {
        assert next[p] == cs[p'] && next[q] == cs[q'];
      }
    }
  }

  lemma MergeIds(cs: seq<HCluster>, i: nat, j: nat, merged: HCluster)
    requires i < j < |cs|
    requires IdsAreLeastItems(cs)
    requires merged.id == cs[i].id && merged.items == cs[i].items + cs[j].items
    ensures IdsAreLeastItems(ErasedAt(cs[i := merged], j))
  {
    var next := ErasedAt(cs[i := merged], j);
    assert cs[i].id < cs[j].id;
    forall p, q | 0 <= p < q < |next|
      ensures next[p].id < next[q].id
    {
      var p', q' := if p < j then p else p + 1, if q < j then q else q + 1;
      assert next[p].id == cs[p'].id && next[q].id == cs[q'].id;
    }
  }

  // ---------------------------------------------------------------------
  // What the linkages compute
  // ---------------------------------------------------------------------

  /** The single linkage of two singleton clusters {a} and {b} is the distance of a and b. */
  lemma SingletonLinkage(metric: (Row, Row) -> real, data: seq<Row>, a: nat, b: nat)
    requires a < |data| && b < |data|
    ensures LinkageValue(Single, metric, data, HCluster(a, {a}), HCluster(b, {b})) == Finite(PointDistance(metric, data, a, b))
  {
    var c1, c2 := HCluster(a, {a}), HCluster(b, {b});
    SingleLinkageIsClosestPair(metric, data, c1, c2);
    assert CrossPair(data, c1, c2, a, b);
  }

  /**
   * Three points at 0, 1 and 5 on a line, clustered into two with single
   * linkage: the two nearest points are merged, and no other partition
   * into two clusters is the result.
   */
  lemma ThreePointExample(metric: (Row, Row) -> real)
    requires metric([0.0], [1.0]) == 1.0 && metric([0.0], [5.0]) == 5.0 && metric([1.0], [5.0]) == 4.0
    ensures Agglomerate(Single, metric, [[0.0], [1.0], [5.0]], Initial(3), 2) == [HCluster(0, {0, 1}), HCluster(2, {2})]
  {
    var data: seq<Row> := [[0.0], [1.0], [5.0]];
    var cs := Initial(3);
    assert cs == [HCluster(0, {0}), HCluster(1, {1}), HCluster(2, {2})];
    SingletonLinkage(metric, data, 0, 1);
    SingletonLinkage(metric, data, 0, 2);
    SingletonLinkage(metric, data, 1, 2);
    var start := PairDist(Single, metric, data, cs, 0, 1);
    assert start == Finite(1.0);
    assert ScanFrom(Single, metric, data, cs, 0, 1, (0, 1, start)) == (0, 1, start);
    assert {0} + {1} == {0, 1};
    var updated := cs[0 := HCluster(0, {0} + {1})];
    assert updated == [HCluster(0, {0, 1}), HCluster(1, {1}), HCluster(2, {2})];
    var next := ErasedAt(updated, 1);
    assert next == updated[..1] + updated[2..];
    assert next == [HCluster(0, {0, 1}), HCluster(2, {2})];
  }

  /** Every merge of Agglomerate keeps the partition and the id order. */
  lemma {:induction false} AgglomerateKeepsPartition(lk: Linkage, metric: (Row, Row) -> real, data: seq<Row>,
                                                     cs: seq<HCluster>, k: nat, n: nat)
    requires Partition(cs, n) && IdsAreLeastItems(cs)
    ensures Partition(Agglomerate(lk, metric, data, cs, k), n)
    ensures IdsAreLeastItems(Agglomerate(lk, metric, data, cs, k))
    decreases |cs|
  {
    if |cs| > k && |cs| >= 2 {
      var pick := ScanFrom(lk, metric, data, cs, 0, 1, (0, 1, PairDist(lk, metric, data, cs, 0, 1)));
      var i, j := pick.0, pick.1;
      var merged := HCluster(cs[i].id, cs[i].items + cs[j].items);
      MergeKeepsPartition(cs, i, j, merged, n);
      AgglomerateKeepsPartition(lk, metric, data, ErasedAt(cs[i := merged], j), k, n);
    }
  }

  /** The running minimum is +infinity exactly for no distances, else the least of them. */
  lemma {:induction false} MinFoldIsLeast(s: seq<real>)
    ensures MinFold(s) == Infinity <==> s == []
    ensures s != [] ==> (forall k :: 0 <= k < |s| ==> MinFold(s).value <= s[k]) &&
                        (exists k :: 0 <= k < |s| && s[k] == MinFold(s).value)
  {
    if s != [] {
      var init := s[..|s| - 1];
      MinFoldIsLeast(init);
      assert forall k :: 0 <= k < |init| ==> s[k] == init[k];
      if init != [] {
        var k :| 0 <= k < |init| && init[k] == MinFold(init).value;
        assert s[k] == MinFold(init).value;
      }
    }
  }

  /** The running maximum from 0.0 is at least 0.0, at least every distance, and 0.0 or one of them. */
  lemma {:induction false} MaxFoldIsGreatest(s: seq<real>)
    ensures MaxFold(s) >= 0.0
    ensures forall k :: 0 <= k < |s| ==> s[k] <= MaxFold(s)
    ensures MaxFold(s) == 0.0 || exists k :: 0 <= k < |s| && s[k] == MaxFold(s)
  {
    if s != [] {
      var init := s[..|s| - 1];
      MaxFoldIsGreatest(init);
      assert forall k :: 0 <= k < |init| ==> s[k] == init[k];
      if MaxFold(init) != 0.0 && MaxFold(s) == MaxFold(init) {
        var k :| 0 <= k < |init| && init[k] == MaxFold(init);
        assert s[k] == MaxFold(s);
      }
    }
  }

  /** Distances between lo and hi sum to between |s| lo and |s| hi. */
  lemma {:induction false} SumBetween(s: seq<real>, lo: real, hi: real)
    requires forall k :: 0 <= k < |s| ==> lo <= s[k] <= hi
    ensures (|s| as real) * lo <= Sum(s) <= (|s| as real) * hi
  {
    if s != [] {
      var init := s[..|s| - 1];
      assert forall k :: 0 <= k < |init| ==> init[k] == s[k];
      SumBetween(init, lo, hi);
      var n := |init| as real;
      assert |s| as real == n + 1.0;
      assert Sum(s) == Sum(init) + s[|s| - 1];
      Distribute(n, lo);
      Distribute(n, hi);
    }
  }

  lemma Distribute(n: real, v: real)
    ensures (n + 1.0) * v == n * v + v
  {
  }

  /** A mean of values between lo and hi lies between lo and hi. */
  lemma MeanBetween(s: seq<real>, lo: real, hi: real)
    requires s != []
    requires forall k :: 0 <= k < |s| ==> lo <= s[k] <= hi
    ensures lo <= Mean(s) <= hi
  {
    SumBetween(s, lo, hi);
    var n := |s| as real;
    QuotientBetween(Sum(s), n, lo, hi);
  }

  lemma QuotientBetween(t: real, n: real, lo: real, hi: real)
    requires n > 0.0
    requires n * lo <= t <= n * hi
    ensures lo <= t / n <= hi
  {
    var q := t / n;
    assert t == n * q;
  }

  /** x is the distance from a to some member of B below nb. */
  ghost predicate FromRow(metric: (Row, Row) -> real, data: seq<Row>, a: nat, B: set<nat>, nb: nat, x: real)
    requires a < |data| && nb <= |data|
  {
    exists b: nat :: b in B && b < nb && x == PointDistance(metric, data, a, b)
  }

  /** x is the distance of some pair (a, b), a in A below na and b in B. */
  ghost predicate FromCross(metric: (Row, Row) -> real, data: seq<Row>, A: set<nat>, B: set<nat>, na: nat, x: real)
    requires na <= |data|
  {
    exists a: nat, b: nat :: a in A && a < na && b in B && b < |data| && x == PointDistance(metric, data, a, b)
  }

  /** Every distance in a row is the distance from a to a member of B. */
  lemma {:induction false} RowMembers(metric: (Row, Row) -> real, data: seq<Row>, a: nat, B: set<nat>, nb: nat)
    requires a < |data| && nb <= |data|
    ensures forall k :: 0 <= k < |RowDistances(metric, data, a, B, nb)| ==>
      FromRow(metric, data, a, B, nb, RowDistances(metric, data, a, B, nb)[k])
  {
    if nb > 0 {
      RowMembers(metric, data, a, B, nb - 1);
      var before := RowDistances(metric, data, a, B, nb - 1);
      var r := RowDistances(metric, data, a, B, nb);
      forall k | 0 <= k < |r|
        ensures FromRow(metric, data, a, B, nb, r[k])
      {
        if k < |before| {
          assert r[k] == before[k];
          assert FromRow(metric, data, a, B, nb - 1, before[k]);
          var b: nat :| b in B && b < nb - 1 && before[k] == PointDistance(metric, data, a, b);
        } else {
          assert r[k] == PointDistance(metric, data, a, nb - 1);
        }
      }
    }
  }

  /** Every member of B below nb contributes its distance to the row. */
  lemma {:induction false} RowContains(metric: (Row, Row) -> real, data: seq<Row>, a: nat, B: set<nat>, nb: nat, b: nat)
    requires a < |data| && nb <= |data|
    requires b in B && b < nb
    ensures PointDistance(metric, data, a, b) in RowDistances(metric, data, a, B, nb)
  {
    if b < nb - 1 {
      RowContains(metric, data, a, B, nb - 1, b);
    }
  }

  /** Every cross distance is the distance of a cross pair. */
  lemma {:induction false} CrossMembers(metric: (Row, Row) -> real, data: seq<Row>, A: set<nat>, B: set<nat>, na: nat)
    requires na <= |data|
    ensures forall k :: 0 <= k < |CrossDistances(metric, data, A, B, na)| ==>
      FromCross(metric, data, A, B, na, CrossDistances(metric, data, A, B, na)[k])
  {
    if na > 0 {
      CrossMembers(metric, data, A, B, na - 1);
      var before := CrossDistances(metric, data, A, B, na - 1);
      var s := CrossDistances(metric, data, A, B, na);
      var row := if na - 1 in A then RowDistances(metric, data, na - 1, B, |data|) else [];
      assert s == before + row;
      if na - 1 in A {
        RowMembers(metric, data, na - 1, B, |data|);
      }
      forall k | 0 <= k < |s|
        ensures FromCross(metric, data, A, B, na, s[k])
      {
        if k < |before| {
          assert s[k] == before[k];
          assert FromCross(metric, data, A, B, na - 1, before[k]);
          var a: nat, b: nat :| a in A && a < na - 1 && b in B && b < |data| && before[k] == PointDistance(metric, data, a, b);
        } else {
          assert s[k] == row[k - |before|];
          assert na - 1 in A;
          assert FromRow(metric, data, na - 1, B, |data|, row[k - |before|]);
          var b: nat :| b in B && b < |data| && row[k - |before|] == PointDistance(metric, data, na - 1, b);
        }
      }
    }
  }

  /** Every cross pair contributes its distance. */
  lemma {:induction false} CrossContains(metric: (Row, Row) -> real, data: seq<Row>, A: set<nat>, B: set<nat>, na: nat,
                                         a: nat, b: nat)
    requires na <= |data|
    requires a in A && a < na && b in B && b < |data|
    ensures PointDistance(metric, data, a, b) in CrossDistances(metric, data, A, B, na)
  {
    if a == na - 1 {
      RowContains(metric, data, a, B, |data|, b);
    } else {
      CrossContains(metric, data, A, B, na - 1, a, b);
    }
  }

  /** The members of B below n, counted in ascending order. */
  function CountBelow(B: set<nat>, n: nat): nat
  {
    if n == 0 then 0 else CountBelow(B, n - 1) + (if n - 1 in B then 1 else 0)
  }

  lemma {:induction false} CountBelowIsCard(B: set<nat>, n: nat)
    ensures CountBelow(B, n) == |set b | b in B && b < n|
  {
    if n > 0 {
      CountBelowIsCard(B, n - 1);
      var smaller := set b | b in B && b < n - 1;
      if n - 1 in B {
        assert (set b | b in B && b < n) == smaller + {n - 1};
      } else {
        assert (set b | b in B && b < n) == smaller;
      }
    }
  }

  lemma {:induction false} RowLength(metric: (Row, Row) -> real, data: seq<Row>, a: nat, B: set<nat>, nb: nat)
    requires a < |data| && nb <= |data|
    ensures |RowDistances(metric, data, a, B, nb)| == CountBelow(B, nb)
  {
    if nb > 0 {
      RowLength(metric, data, a, B, nb - 1);
    }
  }

  lemma {:induction false} CrossLength(metric: (Row, Row) -> real, data: seq<Row>, A: set<nat>, B: set<nat>, na: nat)
    requires na <= |data|
    ensures |CrossDistances(metric, data, A, B, na)| == CountBelow(A, na) * CountBelow(B, |data|)
  {
    if na > 0 {
      CrossLength(metric, data, A, B, na - 1);
      if na - 1 in A {
        RowLength(metric, data, na - 1, B, |data|);
        var c := CountBelow(A, na - 1);
        assert (c + 1) * CountBelow(B, |data|) == c * CountBelow(B, |data|) + CountBelow(B, |data|);
      }
    }
  }

  /** Items within the data, counted, are the whole item set. */
  lemma CountAll(B: set<nat>, n: nat)
    requires forall x :: x in B ==> x < n
    ensures CountBelow(B, n) == |B|
  {
    CountBelowIsCard(B, n);
    assert (set b | b in B && b < n) == B;
  }

  /** A cross pair of the two clusters, both indices within the data. */
  ghost predicate CrossPair(data: seq<Row>, c1: HCluster, c2: HCluster, a: nat, b: nat)
  {
    a in c1.items && b in c2.items && a < |data| && b < |data|
  }

  /**
   * Single linkage is +infinity exactly when there is no cross pair;
   * otherwise it is the distance of a cross pair and no cross pair is
   * closer.
   */
  lemma SingleLinkageIsClosestPair(metric: (Row, Row) -> real, data: seq<Row>, c1: HCluster, c2: HCluster)
    ensures var d := LinkageValue(Single, metric, data, c1, c2);
      (d == Infinity <==> forall a, b :: !CrossPair(data, c1, c2, a, b)) &&
      (d != Infinity ==>
        (exists a, b :: CrossPair(data, c1, c2, a, b) && d.value == PointDistance(metric, data, a, b)) &&
        (forall a, b :: CrossPair(data, c1, c2, a, b) ==> d.value <= PointDistance(metric, data, a, b)))
  {
    var s := CrossDistances(metric, data, c1.items, c2.items, |data|);
    MinFoldIsLeast(s);
    CrossMembers(metric, data, c1.items, c2.items, |data|);
    forall a, b | CrossPair(data, c1, c2, a, b)
      ensures PointDistance(metric, data, a, b) in s
    {
      CrossContains(metric, data, c1.items, c2.items, |data|, a, b);
    }
    if s != [] {
      var k :| 0 <= k < |s| && s[k] == MinFold(s).value;
      assert FromCross(metric, data, c1.items, c2.items, |data|, s[k]);
      var a: nat, b: nat :| a in c1.items && a < |data| && b in c2.items && b < |data| && s[k] == PointDistance(metric, data, a, b);
      assert CrossPair(data, c1, c2, a, b);
    }
  }

  /**
   * Complete linkage is at least 0.0 and at least every cross-pair
   * distance, and is either 0.0 or the distance of a cross pair.
   */
  lemma CompleteLinkageIsFarthestPair(metric: (Row, Row) -> real, data: seq<Row>, c1: HCluster, c2: HCluster)
    ensures var d := LinkageValue(Complete, metric, data, c1, c2);
      d.Finite? && d.value >= 0.0 &&
      (forall a, b :: CrossPair(data, c1, c2, a, b) ==> PointDistance(metric, data, a, b) <= d.value) &&
      (d.value == 0.0 || exists a, b :: CrossPair(data, c1, c2, a, b) && d.value == PointDistance(metric, data, a, b))
  {
    var s := CrossDistances(metric, data, c1.items, c2.items, |data|);
    MaxFoldIsGreatest(s);
    CrossMembers(metric, data, c1.items, c2.items, |data|);
    forall a, b | CrossPair(data, c1, c2, a, b)
      ensures PointDistance(metric, data, a, b) in s
    {
      CrossContains(metric, data, c1.items, c2.items, |data|, a, b);
    }
    if MaxFold(s) != 0.0 {
      var k :| 0 <= k < |s| && s[k] == MaxFold(s);
      assert FromCross(metric, data, c1.items, c2.items, |data|, s[k]);
      var a: nat, b: nat :| a in c1.items && a < |data| && b in c2.items && b < |data| && s[k] == PointDistance(metric, data, a, b);
      assert CrossPair(data, c1, c2, a, b);
    }
  }

  /**
   * Average linkage divides the total by |c1| * |c2| pairs (0.0 when that
   * is 0), and lies between single and complete linkage.
   */
  lemma AverageLinkageIsMean(metric: (Row, Row) -> real, data: seq<Row>, c1: HCluster, c2: HCluster)
    requires ItemsIn(c1, |data|) && ItemsIn(c2, |data|)
    ensures var s := CrossDistances(metric, data, c1.items, c2.items, |data|);
      |s| == |c1.items| * |c2.items| &&
      LinkageValue(Average, metric, data, c1, c2) ==
        Finite(if |s| > 0 then Sum(s) / (|c1.items| * |c2.items|) as real else 0.0)
    ensures c1.items != {} && c2.items != {} ==>
      LinkageValue(Single, metric, data, c1, c2).value <= LinkageValue(Average, metric, data, c1, c2).value <=
      LinkageValue(Complete, metric, data, c1, c2).value
  {
    var s := CrossDistances(metric, data, c1.items, c2.items, |data|);
    CrossLength(metric, data, c1.items, c2.items, |data|);
    CountAll(c1.items, |data|);
    CountAll(c2.items, |data|);
    if c1.items != {} && c2.items != {} {
      assert |c1.items| * |c2.items| > 0;
      MinFoldIsLeast(s);
      MaxFoldIsGreatest(s);
      MeanBetween(s, MinFold(s).value, MaxFold(s));
    }
  }
}
