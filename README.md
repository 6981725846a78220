# k-means clustering core, modelled in Dafny

This project models the clustering core of `src/kmeans.c`: Lloyd's k-means over `n`
points of dimension `d` with `k` means. The parts modelled are:

- the squared Euclidean distance `kmeans_dist`;
- the seeding `kmeans_init`: a Fisher-Yates shuffle of the point indices driven by
  `rand_r`, after which the first `k` shuffled points are copied into the means;
- the assignment step `kmeans_assign_clusters`: each point goes to its nearest mean
  (ties go to the smaller index), and a flag reports whether any point moved;
- the update step `kmeans_compute_means`: per-worker count and sum buffers over a
  `schedule(static)` split of the points, merged into the new means;
- the driver `kmeans`: one seeding, then at most `max_iter` rounds of assignment and
  update, stopping at the first round whose assignment changes nothing.

The points are a read-only value (`seq<seq<real>>`). The arrays the C code writes stay
arrays: `means` is an `array2<real>` and `clusters` an `array<int>`. The update step's
buffers are an `array3<real>` and an `array2<int>`. Each method is proved against a
function on values:
- `SqDist` for the distance;
- `Shuffle` and `InitialMeans` for the seeding;
- `AssignStep` for the assignment;
- `MeansOf` and `Centroid` for the update;
- `Run` and `Iterate` for the driver.

The properties of those functions are proved as lemmas.

An empty cluster's mean is set to all zeros. Lines 178-193 of `src/kmeans.c` clear
`means[j]` and `nb_points[j]`, add the per-worker buffers (all zero for a cluster with no
point), and divide only when `nb_points[j] > 0`, so an empty cluster's mean is all zeros, not its
previous value (`Reduction.Centroid`, `Reduction.CentroidIsMean`).

Modules:
- `Matrix`: the array/value bridge (`Row`, `Rows`).
- `Distance`: `kmeans_dist`.
- `Init`: `rand_r`, the shuffle and `kmeans_init`.
- `Assign`: `kmeans_assign_clusters`.
- `Reduction`: counts, sums, the static split and centroids, on values.
- `Update`: `kmeans_compute_means`.
- `Driver`: `kmeans`.

## Model

| member | source | states |
|---|---|---|
| Distance.KmeansDist | src/kmeans.c:15-22 | the loop's result equals the sum of the squared coordinate differences `SqDist(p1, p2)` |
| Distance.SqDistNonNegative | src/kmeans.c:15-22 | the distance is never negative |
| Distance.SqDistSymmetric | src/kmeans.c:15-22 | the distance from `p` to `q` equals the distance from `q` to `p` |
| Distance.SqDistSelf | src/kmeans.c:15-22 | a point's distance to itself is 0 |
| Init.SwapPartner | src/kmeans.c:64 | the partner `rand_r() % (i+1)` of position `i` lies in `[0, i]` |
| Init.Identity | src/kmeans.c:59-62 | the initial index array `0..n-1` is a permutation of `0..n-1` |
| Init.SwapMultiset | src/kmeans.c:65-67 | exchanging two entries through `temp` keeps the multiset of entries |
| Init.SwapPermutation | src/kmeans.c:65-67 | exchanging two entries of a permutation yields a permutation |
| Init.ShuffleFrom | src/kmeans.c:63-68 | the descending shuffle loop keeps the length of the index array |
| Init.ShuffleFromPermutes | src/kmeans.c:63-68 | the shuffle loop turns a permutation of `0..n-1` into a permutation of `0..n-1` |
| Init.ShuffleFromKeepsEntries | src/kmeans.c:63-68 | the shuffle loop only moves entries: the multiset of indices is unchanged |
| Init.Shuffle | src/kmeans.c:59-68 | the shuffled index array lists each of `0..n-1` exactly once |
| Init.ShuffleIsPermutationOfIndices | src/kmeans.c:59-68 | the shuffled index array has the same multiset as `0..n-1` |
| Init.InitialMeans | src/kmeans.c:59-73 | the `k` seeded means are copies of the points at the first `k` shuffled indices, which are pairwise distinct and below `n`, so no point is chosen twice |
| Init.IdentityIndices | src/kmeans.c:59-62 | the fresh index array holds `0..n-1` in order |
| Init.ShuffleIndices | src/kmeans.c:59-68 | the in-place array fill and shuffle leave the indices and the `rand_r` state of `Shuffle(n, rand, seed)` |
| Init.KmeansInit | src/kmeans.c:58-75 | `means[i][x] == points[indices[i]][x]` for every `i < k`, `x < d`, where `indices` is the shuffle; the new `*rand_state` is the shuffle's final state; the means equal `InitialMeans` |
| Assign.NearestIn | src/kmeans.c:88-96 | the strict `<` scan over the first `m` means returns an index below `m` |
| Assign.NotBeforeFirstArgMin | src/kmeans.c:90-96 | the first nearest mean is never after another nearest mean |
| Assign.FirstArgMinUnique | src/kmeans.c:88-96 | there is only one first nearest mean, so the scan's choice is determined |
| Assign.NearestInIsFirstArgMin | src/kmeans.c:88-96 | the strict `<` scan over means `0..m-1` picks a mean at minimum distance with no earlier mean at that distance |
| Assign.NearestIsFirstArgMin | src/kmeans.c:88-96 | the scan over all `k` means picks the first nearest mean |
| Assign.AssignAll | src/kmeans.c:87-101 | every point gets a cluster index in `[0, k)` |
| Assign.AssignStepMeaning | src/kmeans.c:77-104 | after one step, every point's cluster is in `[0, k)` and is its first nearest mean; the flag is true iff some point's cluster changed |
| Assign.AssignStepIdempotent | src/kmeans.c:77-104 | a second step with the same means changes nothing and returns false |
| Assign.NearestMean | src/kmeans.c:88-96 | the inner scan returns the first nearest mean of the point |
| Assign.KmeansAssignClusters | src/kmeans.c:77-104 | the new `clusters` and the returned flag are those of `AssignStep` on the old assignment and the current means |
| Reduction.CountInSplit | src/kmeans.c:167-174 | counting a cluster over a range is counting over its two halves |
| Reduction.SumInSplit | src/kmeans.c:167-174 | summing a cluster's coordinate over a range is summing over its two halves |
| Reduction.EmptyClusterSumIsZero | src/kmeans.c:189-193 | a cluster with no points has a zero coordinate sum |
| Reduction.CountsUpToStep | src/kmeans.c:173 | one more point raises the total of the counts of the clusters below `m` by one exactly when its cluster is in `[0, m)`, and leaves it unchanged otherwise |
| Reduction.CountsSumToN | src/kmeans.c:178-188 | when every assignment is in `[0, k)`, the `k` cluster counts add up to `n` |
| Reduction.ZeroCounts | src/kmeans.c:178-188 | over no points every count is 0 |
| Reduction.MergedCountPrefix | src/kmeans.c:183-184 | adding the first `t` workers' counts gives the count over their combined range |
| Reduction.MergedSumPrefix | src/kmeans.c:185-187 | adding the first `t` workers' sums gives the sum over their combined range |
| Reduction.PartitionIndependent | src/kmeans.c:163-188 | the merged counts and sums are the same for any split of the points among workers, so the thread count does not change the result |
| Reduction.ChunkStartMonotone | src/kmeans.c:167 | the static schedule's chunk starts never decrease |
| Reduction.StaticBoundsPartition | src/kmeans.c:167 | the static schedule splits `[0, n)` into contiguous ordered chunks covering it |
| Reduction.CentroidIsMean | src/kmeans.c:178-194 | a non-empty cluster's new mean times its size is its coordinate sum; an empty cluster's mean is 0 |
| Update.ZeroMeans | src/kmeans.c:140-145 | every mean coordinate and every count is 0 afterwards |
| Update.ZeroLocals | src/kmeans.c:153-160 | every per-worker count and sum is 0 afterwards |
| Update.AddPoint | src/kmeans.c:170-172 | the point is added to worker `t`'s sum for cluster `j`, and every other entry is unchanged |
| Update.AccumulateChunk | src/kmeans.c:168-174 | worker `t`'s buffers hold, per cluster, the count and coordinate sums of its range `[lo, hi)`; other workers' buffers are unchanged |
| Update.MergeCluster | src/kmeans.c:179-193 | `nb_points[j]` becomes the cluster's size and `means[j]` its centroid (0 when empty); other clusters are unchanged |
| Update.KmeansComputeMeans | src/kmeans.c:106-195 | each `means[j][x]` becomes the centroid of cluster `j`'s points (0 for an empty cluster), whatever the number of workers; the means equal `MeansOf` of the assignment |
| Driver.Iterate | src/kmeans.c:37-52 | the shapes of means and assignment are kept from round to round |
| Driver.IterateFacts | src/kmeans.c:37-55 | from round `i` on, the index ends in `[i, max_iter]`; the flags are all true but a final false when the loop broke; one update ran per completed round; a break leaves a fixed point |
| Driver.RunShape | src/kmeans.c:37-55 | the returned `i` is in `[0, max_iter]` (0 when `max_iter < 0`); `i < max_iter` iff round `i` reported no change; exactly `i` updates ran; on a break the assignment is a fixed point of the assignment step |
| Driver.IterateResult | src/kmeans.c:37-52 | after a round, every cluster index is in `[0, k)`; after an update, each mean is the centroid of the final assignment |
| Driver.RunSummary | src/kmeans.c:24-56 | the bounds on the result, the valid final assignment, the fixed point on a break and the final means as centroids, together |
| Driver.Round | src/kmeans.c:38-51 | one loop pass leaves the assignment and flag of `AssignStep`, and the means become `MeansOf` the new assignment exactly when the flag is true (otherwise they are unchanged) |
| Driver.Rounds | src/kmeans.c:33-55 | the loop leaves the means, the assignment and the index `i` of `Run` from the seeded state; `0 <= i <= max_iter` for `max_iter >= 0`, and `i == 0` otherwise |
| Driver.KMeans | src/kmeans.c:24-56 | `k > n` fails the assertion and changes nothing; otherwise the means after seeding are `InitialMeans`, the final means, assignment and returned `i` are those of `Run`, `0 <= i <= max_iter` for `max_iter >= 0`, and the new `*rand_state` is the shuffle's |

## Left out

- Timing and printing (`get_delta`, `clock_gettime`, `printf` in `kmeans`) have no effect on the results and are left out.
- `rand_r` is a parameter (`Init.RandR`): a function from the state to a value in `[0, RAND_MAX]` and a new state. Its glibc internals are not modelled.
- `double` arithmetic is modelled as exact `real` arithmetic. Rounding, NaN and infinities are not modelled. Under rounding, the per-worker summation order could change the last bits of a mean; `Reduction.PartitionIndependent` holds for exact arithmetic only.
- OpenMP parallelism is run sequentially. In `Assign.KmeansAssignClusters` the points are visited in order, and the `||` reduction gives the same flag in any order. In `Update.KmeansComputeMeans` the workers run one after another, each over the range of libgomp's `schedule(static)` split. The standard leaves the exact split to the implementation; `Reduction.PartitionIndependent` shows that any split gives the same means.
- `nb_threads` only selects the worker count. `omp_set_num_threads` may grant fewer threads; that case is covered by `Reduction.PartitionIndependent`, but it is not modelled as such.
- The padding of `k + 8` buckets in the per-worker buffers only avoids false sharing: the buffers are modelled with `k` buckets. The `malloc`/`free` of the index array becomes a fresh array.
- `int` widths are not modelled. Indices, counts and `max_iter` are unbounded integers, so `n * sizeof(int)` overflow and counter overflow are out of scope.
- Distance.SqDistSelf: only the direction "same point gives 0" is proved; the converse (distance 0 means equal points) is not.
- Assign.KmeansAssignClusters: when `n > 0` and `k == 0`, the C code reads `means[0]` out of bounds. The model requires `k > 0` when there are points, and `Driver.KMeans` requires it when the loop runs at least once.
- Update.KmeansComputeMeans: the model requires every assignment to be in `[0, k)`, which the driver ensures by assigning first. In C an index in `[k, k+8)` lands in an uninitialised padding bucket that the merge never reads, so that point is silently dropped; only an index outside `[0, k+8)` is out of bounds. Neither case is modelled.
- Driver.KMeans: a failing `assert(k <= n)` aborts the process in C. It is modelled as the `AssertionFailure` outcome with nothing changed. Builds with `NDEBUG` are not modelled.
- Driver.KMeans: the valid-index and centroid facts about the final state are stated on `Run` by `Driver.RunSummary` rather than on the arrays.
- `src/compress.c` and `src/main.c`, the image compression built on this core and the command line, are not part of this model.
