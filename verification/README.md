# Machine-Learning-Cpp: a verified model of the training and clustering core

This project models the sequential core of the C++ library
Machine-Learning-Cpp in Dafny and proves what that code promises. The core
has five parts:

- **The simplified SMO trainer** (`svm.dfy`, module `Svm`). `SVM::fit` stores the rows as
  support vectors and runs `optimize`. That zeroes `alphas`, `weights` and
  `bias`, then sweeps over the samples. A sample that violates the KKT test
  gets a random partner `j != i`. The pair update computes the box
  `[L, H]`, skips when `L == H` or `eta >= 0`, and takes a clipped step on
  `alpha_j`. It skips again on a move below `epsilon`, with `alpha_j` already
  stored. Otherwise it compensates `alpha_i` and picks the new bias.
  `decision_function`, `predict` and batch `predict` are modelled too.
  `Trainer` is a class whose fields the methods rewrite. `PairUpdate` is the
  specification function the update is proved against.
- **Agglomerative clustering over clusters of indices** (`hierarchical_cluster.dfy`,
  module `HierarchicalCluster`). This is
  `HierarchicalCluster::perform_clustering` with its single, complete and
  average linkages, `calculate_distance` and `merge_clusters`. Each linkage
  loop is a method proved against a fold over the sequence of cross-pair
  distances. `std::set` iteration is ascending. `Clustering/hierarchical_cluster.cpp`
  has the same statements as `src/Clustering/hierarchical_cluster.cpp`. Only
  the comments differ, and they shift some lines by one. The one module
  models both; the line numbers in the table are those of the `src/` copy.
- **Agglomerative clustering over labels and a distance matrix**
  (`hierarchical_clustering.dfy`, module `MatrixClustering`). This is
  `HierarchicalClustering::fit`, `find_closest_clusters` and
  `update_distance_matrix`. The Eigen matrix is an `array2<real>`, specified
  through its value `Snapshot`.
- **K-Means** (`kmeans.dfy`, module `KMeansClustering`). The `KMeans` class
  covers the constructor's checks, `initialize_centroids`,
  `calculate_distance`, `assign_clusters`, `update_centroids` and `run`.
- **Small building blocks.**
  - The `Cluster<T>` item-set container (`cluster.dfy`, module `Clusters`).
  - The `Euclidean_Distance` functor (`distance.dfy`, module `Distance`).
  - The loss and penalty functions (`losses.dfy`, module `Losses`).
  - `numeric.dfy` holds `DBL_MAX`, `std::abs`, `std::min` and `std::max`.
  - `wrappers.dfy` holds `Option` and `Result`.

Modelling conventions:

- Doubles are `real`.
- `DBL_MAX` is the exact value 1.7976931348623157e308.
- The `+infinity` start value of single linkage is the `Infinity` case of
  `HierarchicalCluster.Dist`.
- A thrown `std::invalid_argument` is a `Failure` of a `Result`.
- Undefined behaviour is a distinct outcome:
  - `perform_clustering` with `num_clusters == 0` reads `clusters[1]` from a
    vector of one cluster (`ReadPastEnd`);
  - `fit` of the matrix variant indexes row `-1` once no entry is below
    `DBL_MAX` (`NoPairLeft`);
  - the partner search `while (j == i)` never ends when `m == 1`
    (`PartnerSearchHangs`).
- The kernel, the distance metric, `sqrt` and `Eigen::norm` are function
  parameters.
- `rand()` is a nondeterministic choice of `j != i`.
- The clock-seeded `std::shuffle` is a permutation parameter.

Quirks of the code that the model keeps and proves:

- `weights` is zeroed in `optimize` and never written again. So after `fit`
  the decision value is `bias` for every input (`Svm.Trainer.Fit`).
- The epsilon skip leaves the clipped `alpha_j` in place without
  compensating `alpha_i`, so the sum of `y * alpha` can drift. A concrete
  instance is in `Svm.EpsilonSkipDrifts`.
- An empty K-Means cluster gets a zero point, not its old centroid.
- `perform_clustering` parses the linkage name only once a merge is needed.
  With `num_clusters == |data|`, an unknown name is accepted.

## Model

| member | source | states |
|---|---|---|
| Losses.Mse | include/Losses/loss_functions.hpp:22-32 | the accumulator loop returns the size-mismatch error, the empty-input error, or the sum of squared errors over the length |
| Losses.Mae | include/Losses/loss_functions.hpp:35-45 | the same for absolute errors |
| Losses.Huber | include/Losses/loss_functions.hpp:48-63 | the same for the Huber term, with default delta 1 |
| Losses.HingeLoss | include/Losses/loss_functions.hpp:114-125 | the same for max(0, 1 - y_true y_pred) |
| Losses.SquaredHingeLoss | include/Losses/loss_functions.hpp:129-142 | the same for the squared margin term |
| Losses.L1Penalty | include/Losses/loss_functions.hpp:149-154 | the loop computes the sum of absolute weights |
| Losses.L2Penalty | include/Losses/loss_functions.hpp:156-161 | the loop computes the sum of squared weights |
| Losses.ElasticNetPenalty | include/Losses/loss_functions.hpp:163-167 | with l1_ratio 1 it is alpha times L1; with l1_ratio 0 it is alpha times L2 |
| Losses.SumOfNonNegative | include/Losses/loss_functions.hpp:27-31 | an accumulator of non-negative terms is non-negative, and it is zero iff every term is |
| Losses.SizeMismatchIsReported | include/Losses/loss_functions.hpp:24-31 | a loss fails with the mismatch error iff the lengths differ, and with the division error iff both are empty |
| Losses.MseNonNegative | include/Losses/loss_functions.hpp:27-31 | for non-empty input of equal length, MSE succeeds, is >= 0, and is 0 when predictions equal targets |
| Losses.MaeZeroIffExact | include/Losses/loss_functions.hpp:40-44 | MAE succeeds, is >= 0, and is 0 iff predictions equal targets |
| Losses.HuberTermProperties | include/Losses/loss_functions.hpp:55-59 | for delta > 0 each Huber term is >= 0, and the two branches agree at abs(r) == delta |
| Losses.HuberNonNegative | include/Losses/loss_functions.hpp:53-62 | the Huber loss succeeds and is >= 0 for delta > 0 |
| Losses.HingeZeroIffMargins | include/Losses/loss_functions.hpp:120-124 | the hinge loss is >= 0, and is 0 iff every margin y_true y_pred is >= 1 |
| Losses.SquaredHingeIsSquare | include/Losses/loss_functions.hpp:135-141 | every squared-hinge term is the square of the hinge term, and the loss is >= 0 |
| Losses.ElasticNetNonNegative | include/Losses/loss_functions.hpp:163-167 | with alpha >= 0 and l1_ratio in [0, 1] the penalty is >= 0 |
| Losses.L1NonNegative | include/Losses/loss_functions.hpp:150-153 | L1 is >= 0, and is 0 iff every weight is 0 |
| Losses.L2NonNegative | include/Losses/loss_functions.hpp:157-160 | L2 is >= 0, and is 0 when every weight is 0 |
| Distance.EuclideanDistance.constructor | Clustering/distance.h:19 | the functor is named "Euclidean Distance" |
| Distance.EuclideanDistance.Apply | Clustering/distance.h:21-31 | -1.0 for vectors of different lengths, else sqrt of the accumulated sum of squared differences |
| Distance.SumSquaredDiffNonNegative | Clustering/distance.h:25-29 | the accumulated sum is never negative |
| Distance.SumSquaredDiffSymmetric | Clustering/distance.h:27-29 | the accumulated sum is the same with x and y swapped |
| Distance.SumSquaredDiffSelf | Clustering/distance.h:27-29 | a vector's sum against itself is 0 |
| Distance.EuclideanNonNegative | Clustering/distance.h:25-30 | for equal lengths and a square root that is non-negative on non-negative inputs, the distance is >= 0 |
| Distance.EuclideanSymmetric | Clustering/distance.h:21-30 | the functor is symmetric, including the sentinel case |
| Distance.EuclideanSelf | Clustering/distance.h:27-30 | a vector is at sqrt(0) from itself |
| Distance.MismatchIsSentinel | Clustering/distance.h:22-24 | the result is -1.0 iff the lengths differ |
| Distance.UsageExampleDistance | Clustering/main.cpp:34-39 | (0, 0) and (1, 1) are sqrt(2) apart |
| Clusters.Cluster.constructor | Clustering/cluster.cpp:4 | a new cluster has the given id and no items |
| Clusters.Cluster.AddItem | Clustering/cluster.cpp:7-9 | items gain x; adding a present item changes nothing; the id is kept |
| Clusters.Cluster.RemoveItem | Clustering/cluster.cpp:12-14 | items lose x; removing an absent item changes nothing; the id is kept |
| Clusters.Cluster.Size | Clustering/cluster.cpp:17-19 | 0 iff the cluster holds no items |
| Clusters.Cluster.Data | Clustering/cluster.cpp:22-24 | returns exactly the items that contains accepts, as many as size() |
| Clusters.Cluster.Merge | Clustering/cluster.h:47-48 | this cluster's items become the union of both |
| Clusters.Cluster.Intersect | Clustering/cluster.h:50-51 | a fresh cluster holding the intersection |
| Clusters.Cluster.Unite | Clustering/cluster.h:53-54 | a fresh cluster holding the union |
| Clusters.Cluster.Difference | Clustering/cluster.h:56-57 | a fresh cluster holding the difference |
| Clusters.Cluster.Contains | Clustering/cluster.h:59-60 | true exactly for the items held; a cluster that contains anything is not empty |
| Clusters.Cluster.IsEmpty | Clustering/cluster.h:62-63 | holds iff size() == 0; then nothing is contained |
| Clusters.Cluster.Clear | Clustering/cluster.h:65-66 | no items afterwards; the id is kept |
| Clusters.Cluster.Equals | Clustering/cluster.h:77-78 | holds iff each item set includes the other; equal clusters have equal sizes and members |
| Clusters.Cluster.NotEquals | Clustering/cluster.h:80-81 | the negation of == |
| Clusters.UsageExample | Clustering/main.cpp:5-13 | adding 0..4 and 5..9, then removing 7, gives sizes 5 and 4 |
| Svm.Clamp | src/Classification/SVM.cpp:79 | std::clamp stays in [lo, hi] when lo <= hi, and leaves a value already inside unchanged |
| Svm.Trainer.constructor | src/Classification/SVM.cpp:4-6 | stores the parameters, with the defaults of include/Classification/SVM.h; empty model; bias 0 |
| Svm.Trainer.DecisionFunction | src/Classification/SVM.cpp:26-32 | the loop computes the kernel-weighted sum over the support vectors, plus the bias |
| Svm.Trainer.Predict | src/Classification/SVM.cpp:110-112 | 1.0 iff the decision value is >= 0, else -1.0 |
| Svm.Trainer.PredictAll | src/Classification/SVM.cpp:115-121 | one label per row, each the single-row prediction |
| Svm.Trainer.TakeStep | src/Classification/SVM.cpp:44-97 | a visit of index i: the KKT test on E_i, then either no change, the hang for m == 1, or PairUpdate with a partner j != i on the fields |
| Svm.Trainer.ApplyPair | src/Classification/SVM.cpp:55-96 | the field updates equal PairUpdate: bounds, both skips, the clip stored before the epsilon test, the compensation, the bias rule |
| Svm.Trainer.Optimize | src/Classification/SVM.cpp:35-101 | weights stay zero; the alphas stay in [0, C] for C >= 0 and labels in {-1, +1}; the hang happens only for m == 1 |
| Svm.Trainer.Fit | src/Classification/SVM.cpp:104-107 | the rows become the support vectors; box kept; the decision value is the bias for every input |
| Svm.DecisionIgnoresZeroWeights | src/Classification/SVM.cpp:28-30 | with all weights zero the decision sum is 0 |
| Svm.StartInBox | src/Classification/SVM.cpp:37-39 | the all-zero start lies in the box [0, C] |
| Svm.StartViolatesKkt | src/Classification/SVM.cpp:45-47 | at the start every sample violates the KKT test when 0 < C and tolerance < 1 |
| Svm.BoundsWellFormed | src/Classification/SVM.cpp:59-66 | for alphas in [0, C], 0 <= L <= H <= C in both label cases |
| Svm.SkipsLeaveStateUnchanged | src/Classification/SVM.cpp:68-73 | the L == H and eta >= 0 skips happen exactly on those conditions, and change neither alphas nor bias |
| Svm.CompensationConserves | src/Classification/SVM.cpp:84 | the alpha_i update keeps y_i alpha_i + y_j alpha_j for labels in {-1, +1} |
| Svm.CommitWritesPair | src/Classification/SVM.cpp:76-84 | a committed step writes only alpha_i and alpha_j, and alpha_j lies in [L, H] |
| Svm.CommitConservesPair | src/Classification/SVM.cpp:76-84 | a committed step keeps y_i alpha_i + y_j alpha_j |
| Svm.CommitConservesWeightedSum | src/Classification/SVM.cpp:76-96 | a committed step keeps the whole sum of y * alpha |
| Svm.PairUpdateKeepsBox | src/Classification/SVM.cpp:59-84 | every branch, the epsilon skip included, keeps the alphas in [0, C] |
| Svm.EpsilonSkipDrifts | src/Classification/SVM.cpp:76-81 | a concrete violating pair whose epsilon skip changes the sum of y * alpha from -0.999999 to -1 |
| Svm.UnclippedBiasesAgree | src/Classification/SVM.cpp:87-94 | without clipping b1 == b2, so the bias rule only matters at the box edges |
| Svm.SameLabelsNeverCommit | src/Classification/SVM.cpp:54-81 | with zero weights a pair with equal labels has equal errors, so for alphas in the box it never commits and changes nothing |
| HierarchicalCluster.ParseLinkage | src/Clustering/hierarchical_cluster.cpp:53-61 | exactly "single", "complete" and "average" are recognised |
| HierarchicalCluster.ErasedAt | src/Clustering/hierarchical_cluster.cpp:43 | vector::erase: one element shorter, with later elements shifted down |
| HierarchicalCluster.SingleLinkage | src/Clustering/hierarchical_cluster.cpp:65-77 | the nested loop computes the running minimum from +infinity over the cross distances |
| HierarchicalCluster.CompleteLinkage | src/Clustering/hierarchical_cluster.cpp:80-92 | the nested loop computes the running maximum from 0.0 over the cross distances |
| HierarchicalCluster.AverageLinkage | src/Clustering/hierarchical_cluster.cpp:95-106 | the nested loop computes total / count, or 0.0 with no pair |
| HierarchicalCluster.CalculateDistance | src/Clustering/hierarchical_cluster.cpp:50-62 | the chosen linkage's value; it fails iff the name is not one of the three |
| HierarchicalCluster.MergeClusters | src/Clustering/hierarchical_cluster.cpp:109-113 | cluster1 keeps its id, and its items become the union of both |
| HierarchicalCluster.Singletons | src/Clustering/hierarchical_cluster.cpp:16-22 | cluster i is HCluster(i, {i}) |
| HierarchicalCluster.ClosestPair | src/Clustering/hierarchical_cluster.cpp:26-39 | returns min_i < min_j, with a linkage value no pair is below, and strictly below every pair scanned earlier; this is the pick ScanFrom makes from (0, 1) |
| HierarchicalCluster.ScanRow | src/Clustering/hierarchical_cluster.cpp:31-38 | the inner loop over j moves the scan from (i, i + 1) to (i + 1, i + 2) without changing where it ends |
| HierarchicalCluster.ScanFrom | src/Clustering/hierarchical_cluster.cpp:30-39 | the pair the nested loops keep is always some i < j of the clusters |
| HierarchicalCluster.Scan | src/Clustering/hierarchical_cluster.cpp:30-39 | the same loops over any pair distance keep some i < j below n |
| HierarchicalCluster.ScanFindsFirstClosest | src/Clustering/hierarchical_cluster.cpp:30-39 | the loops end at the first pair in scan order with the least distance: no pair is below it, and it is strictly below every earlier pair |
| HierarchicalCluster.ScanFromIsScan | src/Clustering/hierarchical_cluster.cpp:30-39 | the scan over the clusters is that loop over their linkage distances |
| HierarchicalCluster.Agglomerate | src/Clustering/hierarchical_cluster.cpp:25-44 | the merge loop leaves exactly k clusters for 1 <= k <= size, and merges nothing when size <= k |
| HierarchicalCluster.AgglomerateKeepsPartition | src/Clustering/hierarchical_cluster.cpp:25-44 | all the merges together keep the partition of the indices and the ids as least items |
| HierarchicalCluster.ThreePointExample | src/Clustering/hierarchical_cluster.cpp:4-47 | points 0, 1 and 5 on a line, in two clusters with single linkage, give {0, 1} with id 0 and {2} with id 2 |
| HierarchicalCluster.LinkageOf | src/Clustering/hierarchical_cluster.cpp:53-58 | the dispatch once the linkage name is known to be valid |
| HierarchicalCluster.PerformClustering | src/Clustering/hierarchical_cluster.cpp:4-47 | the empty-data, too-many, unknown-linkage and clusters[1] errors, each with its exact condition; otherwise exactly num_clusters clusters that partition the indices; for a valid linkage they are Agglomerate of the singletons, and with an unknown linkage and no merge they are the singletons |
| HierarchicalCluster.BelowOrder | src/Clustering/hierarchical_cluster.cpp:33 | the strict `<` on doubles with +infinity is a strict order |
| HierarchicalCluster.SingletonsPartition | src/Clustering/hierarchical_cluster.cpp:18-22 | the singletons partition {0..n-1}, and each id is its cluster's least item |
| HierarchicalCluster.MergeKeepsPartition | src/Clustering/hierarchical_cluster.cpp:42-43 | merging j into i < j and erasing j keeps the partition and the id order, one cluster fewer |
| HierarchicalCluster.MergeCovers | src/Clustering/hierarchical_cluster.cpp:42-43 | after the merge, every index is still in some cluster |
| HierarchicalCluster.MergeDisjoint | src/Clustering/hierarchical_cluster.cpp:42-43 | after the merge, no index is in two clusters |
| HierarchicalCluster.MergeIds | src/Clustering/hierarchical_cluster.cpp:42-43 | after the merge, ids are still least items in ascending order |
| HierarchicalCluster.MinFoldIsLeast | src/Clustering/hierarchical_cluster.cpp:67-75 | the running minimum is +infinity iff there are no distances, else the least of them, attained |
| HierarchicalCluster.MaxFoldIsGreatest | src/Clustering/hierarchical_cluster.cpp:82-90 | the running maximum is >= 0.0 and >= every distance, and it is 0.0 or one of them |
| HierarchicalCluster.SumBetween | src/Clustering/hierarchical_cluster.cpp:97-103 | distances in [lo, hi] sum to between count * lo and count * hi |
| HierarchicalCluster.MeanBetween | src/Clustering/hierarchical_cluster.cpp:105 | the mean of distances in [lo, hi] lies in [lo, hi] |
| HierarchicalCluster.RowMembers | src/Clustering/hierarchical_cluster.cpp:69-74 | every distance the inner loop sees is that of a member of cluster2 |
| HierarchicalCluster.RowContains | src/Clustering/hierarchical_cluster.cpp:69-74 | every member of cluster2 contributes its distance |
| HierarchicalCluster.CrossMembers | src/Clustering/hierarchical_cluster.cpp:68-75 | every distance the nested loops see is that of a cross pair |
| HierarchicalCluster.CrossContains | src/Clustering/hierarchical_cluster.cpp:68-75 | every cross pair contributes its distance |
| HierarchicalCluster.RowLength | src/Clustering/hierarchical_cluster.cpp:100-103 | the inner loop visits as many pairs as cluster2 has items below the bound |
| HierarchicalCluster.CrossLength | src/Clustering/hierarchical_cluster.cpp:99-103 | the nested loops visit (items of cluster1) * (items of cluster2) pairs |
| HierarchicalCluster.SingleLinkageIsClosestPair | src/Clustering/hierarchical_cluster.cpp:65-77 | +infinity iff there is no cross pair; otherwise the distance of some cross pair and at most every cross distance |
| HierarchicalCluster.CompleteLinkageIsFarthestPair | src/Clustering/hierarchical_cluster.cpp:80-92 | finite and >= 0, at least every cross distance, and 0.0 or attained |
| HierarchicalCluster.AverageLinkageIsMean | src/Clustering/hierarchical_cluster.cpp:95-106 | count == the product of the sizes, the value is total / (size1 * size2) or 0.0, and single <= average <= complete for non-empty clusters |
| KMeansClustering.ClusterSum | src/Clustering/K-Means/KMeans.cpp:83-89 | the per-cluster coordinate sum has N coordinates |
| KMeansClustering.Centroid | src/Clustering/K-Means/KMeans.cpp:92-98 | the new centroid has N coordinates |
| KMeansClustering.Update | src/Clustering/K-Means/KMeans.cpp:79-100 | update_centroids yields exactly num_clusters centroids of dimension N |
| KMeansClustering.Rounds | src/Clustering/K-Means/KMeans.cpp:22-27 | any number of rounds keeps the number and dimension of the centroids |
| KMeansClustering.Resize | src/Clustering/K-Means/KMeans.cpp:61 | labels_.resize(n): length n, a kept prefix, then zeros |
| KMeansClustering.KMeans.constructor | src/Clustering/K-Means/KMeans.cpp:6-18 | past the checks: stores the arguments, and the centroids are the first num_clusters shuffled points |
| KMeansClustering.KMeans.InitializeCentroids | src/Clustering/K-Means/KMeans.cpp:37-45 | the centroids are the first num_clusters points of the permuted data; nothing else changes |
| KMeansClustering.KMeans.CalculateDistance | src/Clustering/K-Means/KMeans.cpp:49-56 | the loop computes sqrt of the sum of squared coordinate differences |
| KMeansClustering.KMeans.AssignClusters | src/Clustering/K-Means/KMeans.cpp:60-74 | labels become one nearest-centroid index per point; data and centroids are unchanged |
| KMeansClustering.KMeans.UpdateCentroids | src/Clustering/K-Means/KMeans.cpp:78-101 | the centroids become the per-cluster means, or the zero point for an empty cluster |
| KMeansClustering.KMeans.Run | src/Clustering/K-Means/KMeans.cpp:22-27 | exactly max(iterations, 0) rounds; labels are from the last round's assignment |
| KMeansClustering.KMeans.GetCentroids | src/Clustering/K-Means/KMeans.cpp:31-33 | num_clusters centroids of dimension N |
| KMeansClustering.Create | src/Clustering/K-Means/KMeans.cpp:6-18 | the three invalid_argument cases in order; success iff 1 <= num_clusters <= size |
| KMeansClustering.AccumulateStep | src/Clustering/K-Means/KMeans.cpp:83-89 | one point more adds it to its own cluster's sum only |
| KMeansClustering.ScanFindsNearest | src/Clustering/K-Means/KMeans.cpp:63-72 | label 0 when no centroid is below DBL_MAX; otherwise a nearest centroid, the lowest index among ties |
| KMeansClustering.AssignInRange | src/Clustering/K-Means/KMeans.cpp:61-73 | one label per point, each in [0, num_clusters) |
| KMeansClustering.CountsSumToSize | src/Clustering/K-Means/KMeans.cpp:88 | the per-cluster counts sum to the number of points |
| KMeansClustering.EmptyClusterSum | src/Clustering/K-Means/KMeans.cpp:80-89 | a cluster nobody joined sums to the zero point |
| KMeansClustering.EmptyClusterGetsOrigin | src/Clustering/K-Means/KMeans.cpp:93-97 | an empty cluster's new centroid is the zero point |
| KMeansClustering.ClusterSumBetween | src/Clustering/K-Means/KMeans.cpp:83-89 | members' coordinates in [lo, hi] sum to between count * lo and count * hi |
| KMeansClustering.CentroidWithinMembers | src/Clustering/K-Means/KMeans.cpp:92-98 | a non-empty cluster's centroid coordinate lies between its members' least and greatest |
| KMeansClustering.RoundsIterate | src/Clustering/K-Means/KMeans.cpp:22-27 | run's rounds are one assign-then-update round applied again and again |
| KMeansClustering.RoundsCompose | src/Clustering/K-Means/KMeans.cpp:22-27 | a rounds then b rounds equal a + b rounds |
| KMeansClustering.FixedPointIsStable | src/Clustering/K-Means/KMeans.cpp:22-27 | centroids that one round fixes stay fixed for any number of rounds |
| KMeansClustering.DistanceSymmetricAndReflexive | src/Clustering/K-Means/KMeans.cpp:49-56 | calculate_distance is symmetric, and a point is at sqrt(0) from itself |
| MatrixClustering.MergeRows | src/Clustering/hierarchical_clustering.cpp:68-78 | the updated matrix is n by n |
| MatrixClustering.Relabel | src/Clustering/hierarchical_clustering.cpp:27-31 | relabelling keeps the number of samples |
| MatrixClustering.HierarchicalClustering.constructor | src/Clustering/hierarchical_clustering.cpp:6 | stores num_clusters, with no labels yet |
| MatrixClustering.HierarchicalClustering.FindClosestClusters | src/Clustering/hierarchical_clustering.cpp:49-65 | (-1, -1, DBL_MAX) when no entry above the diagonal is below DBL_MAX; otherwise a < b with the least entry, strictly below every earlier one in row-major order; this is the pick ScanMatrix makes from (0, 1) |
| MatrixClustering.ScanMatrix | src/Clustering/hierarchical_clustering.cpp:49-65 | the scan keeps either (-1, -1, DBL_MAX) or a pair a < b inside the matrix |
| MatrixClustering.ScanMatrixFindsClosest | src/Clustering/hierarchical_clustering.cpp:49-65 | the scan ends at (-1, -1, DBL_MAX) exactly when no entry above the diagonal is below DBL_MAX, and otherwise at the first least entry in row-major order |
| MatrixClustering.HierarchicalClustering.Start | src/Clustering/hierarchical_clustering.cpp:10-21 | the labels become 0..n-1 and the matrix the initial distances, which meet the loop invariants |
| MatrixClustering.HierarchicalClustering.MergeClosest | src/Clustering/hierarchical_clustering.cpp:23-35 | one pass keeps the invariants and removes one label, or finds no pair and changes nothing, which with finite distances means at most one label is left; it is one pass of Agglomerated |
| MatrixClustering.ThreeSampleExample | src/Clustering/hierarchical_clustering.cpp:9-36 | samples 0, 1 and 5 on a line, in two clusters, end with labels [0, 0, 2] |
| MatrixClustering.HierarchicalClustering.UpdateDistanceMatrix | src/Clustering/hierarchical_clustering.cpp:68-78 | the new matrix is MergeRows of the old one |
| MatrixClustering.HierarchicalClustering.InitialDistances | src/Clustering/hierarchical_clustering.cpp:16-21 | a fresh matrix with 0 on the diagonal and the metric of the ordered pair elsewhere |
| MatrixClustering.HierarchicalClustering.Merge | src/Clustering/hierarchical_clustering.cpp:26-33 | one loop pass: b's samples are relabelled a, then the matrix is updated |
| MatrixClustering.HierarchicalClustering.Fit | src/Clustering/hierarchical_clustering.cpp:9-36 | every label is a sample carrying it; on completion there are min(num_clusters, n) labels; with num_clusters >= n there is no merge and the labels are the identity; it completes when num_clusters >= 1 and all distances are below DBL_MAX; it completes iff Agglomerated of the initial matrix and labels is Some, and then the labels are its value |
| MatrixClustering.IdentityLabels | src/Clustering/hierarchical_clustering.cpp:11-14 | the identity labelling has exactly the n labels 0..n-1 |
| MatrixClustering.InitialInvariants | src/Clustering/hierarchical_clustering.cpp:16-21 | the initial matrix is symmetric with a zero diagonal, and the loop invariants hold for it |
| MatrixClustering.MergeKeepsSymmetry | src/Clustering/hierarchical_clustering.cpp:68-78 | update_distance_matrix preserves symmetry |
| MatrixClustering.MergeIsSingleLinkage | src/Clustering/hierarchical_clustering.cpp:69-77 | d(a,i) = d(i,a) = min(d(a,i), d(b,i)) for i not in {a, b}; row and column b hold DBL_MAX; all other entries unchanged |
| MatrixClustering.FoundPairIsLive | src/Clustering/hierarchical_clustering.cpp:24-33 | a pair below DBL_MAX joins two distinct live clusters |
| MatrixClustering.NoPairMeansOneCluster | src/Clustering/hierarchical_clustering.cpp:23-24 | with finite distances, the scan finds nothing only when at most one cluster is left |
| MatrixClustering.RelabelMerges | src/Clustering/hierarchical_clustering.cpp:27-31 | relabelling live b as live a removes exactly label b |
| MatrixClustering.MergeStepKeepsInvariants | src/Clustering/hierarchical_clustering.cpp:23-35 | one pass keeps every label a sample carrying it, removes one label, and keeps the matrix invariants |
| MatrixClustering.MergeKeepsInvariants | src/Clustering/hierarchical_clustering.cpp:33 | after a merge, retired rows and columns hold DBL_MAX, and live pairs stay below it given finite distances |

## Left out

- Kernel arithmetic (`SVM::kernel_function`: `dot`, `std::pow`, `std::exp`): the kernel is a function parameter, since the model works over `real`.
- The `rand() % m` partner choice: a nondeterministic `j != i`; `m == 1` is the `PartnerSearchHangs` outcome.
- Svm.Trainer.Optimize: the outer `while` is bounded by a `fuel` number of passes, because `iteration` advances only after a pass with no commit and nothing bounds the number of such passes; running out is the `OutOfFuel` outcome.
- Floating point in general: doubles are `real`, with no rounding, overflow or NaN. Exact comparisons (`L == H`, `d < min`) are real comparisons.
- `sqrt` in `Euclidean_Distance` and `KMeans::calculate_distance`, and `Eigen::norm` in `compute_distance`: function parameters, not computed.
- `binary_cross_entropy` and `multiclass_cross_entropy`: they use `std::log` on clamped floats, which has no exact counterpart over `real`.
- `initialize_centroids`: the clock-seeded engine and `std::shuffle` are replaced by a permutation parameter; only the outcome "the first num_clusters shuffled points" is modelled.
- Losses.MseNonNegative: states `>= 0` and "0 when exact", not "0 iff exact", because the solver cannot show that a sum of squares that is zero forces every term to zero.
- Losses.L2NonNegative: states "0 when all weights are 0", not "0 iff", for the same reason.
- The losses are modelled for one arithmetic type over `real`; integer instantiations of the templates (truncating division) are not modelled.
- KMeansClustering.KMeans: the `float` instantiations and the fixed `N` of `Point<T, N>` become `real` points of length `dim`; labels are `nat`, not `int`.
- `HierarchicalCluster` objects are values in a sequence (`std::vector` holds copies), so `merge_clusters` returns the grown cluster instead of updating it by reference.
- The linkage loops iterate the indices 0..n-1 and skip non-members, which visits the members of the `std::set` in its ascending order.
- `perform_clustering` parses the linkage name on each call of `calculate_distance`; the model does it once per merge, which gives the same result.
- MatrixClustering.HierarchicalClustering.Fit: once find_closest_clusters returns (-1, -1) the source indexes row -1, which is undefined behaviour; the model stops with `NoPairLeft` and proves that this cannot happen when distances are finite and num_clusters >= 1.
- `get_labels`, `get_support_vectors` and the `KMeans::get_centroids` reference are plain getters.
- `Cluster::serialize`, `deserialize` and `print`: their format is in cluster.tpp, which is not part of this model; the bodies of the other cluster.h operations follow their names and comments.
- The copy and move constructors and assignments of `Cluster<T>`, and `Cluster(id, items)`: no body is shown.
- LDA, PCA, the PAC-learning concept, the decision trees, regressions, KNN and the minimum distance classifier: outside this core (foreign numeric libraries, file I/O, plotting).
