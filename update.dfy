/** Mean recomputation, `kmeans_compute_means` (src/kmeans.c:106-195). The OpenMP
    region is run worker after worker; each worker still owns the contiguous range
    that `schedule(static)` gives it and adds only into its own buffers. */
module Update {
  import opened Matrix
  import opened Reduction

  /** Clearing of `means` and `nb_points` (src/kmeans.c:140-145). */
  method ZeroMeans(means: array2<real>, nbPoints: array<int>)
    requires nbPoints.Length == means.Length0
    modifies means, nbPoints
    ensures forall j, x :: 0 <= j < means.Length0 && 0 <= x < means.Length1 ==> means[j, x] == 0.0
    ensures forall j :: 0 <= j < nbPoints.Length ==> nbPoints[j] == 0
  {
    for j := 0 to means.Length0
      invariant forall j', x :: 0 <= j' < j && 0 <= x < means.Length1 ==> means[j', x] == 0.0
      invariant forall j' :: 0 <= j' < j ==> nbPoints[j'] == 0
    {
      for x := 0 to means.Length1
        modifies means
        invariant forall j', x' :: 0 <= j' < j && 0 <= x' < means.Length1 ==> means[j', x'] == 0.0
        invariant forall x' :: 0 <= x' < x ==> means[j, x'] == 0.0
        invariant forall j' :: 0 <= j' < j ==> nbPoints[j'] == 0
      {
        means[j, x] := 0.0;
      }
      nbPoints[j] := 0;
    }
  }

  /** Clearing of the per-worker buffers (src/kmeans.c:153-160). */
  method ZeroLocals(localMeans: array3<real>, localCounts: array2<int>)
    requires localMeans.Length0 == localCounts.Length0 && localMeans.Length1 == localCounts.Length1
    modifies localMeans, localCounts
    ensures forall t, j :: 0 <= t < localCounts.Length0 && 0 <= j < localCounts.Length1 ==> localCounts[t, j] == 0
    ensures forall t, j, x :: 0 <= t < localMeans.Length0 && 0 <= j < localMeans.Length1 && 0 <= x < localMeans.Length2 ==>
      localMeans[t, j, x] == 0.0
  {
    var nbThreads, k, d := localMeans.Length0, localMeans.Length1, localMeans.Length2;
    for t := 0 to nbThreads
      invariant forall t', j :: 0 <= t' < t && 0 <= j < k ==> localCounts[t', j] == 0
      invariant forall t', j, x :: 0 <= t' < t && 0 <= j < k && 0 <= x < d ==> localMeans[t', j, x] == 0.0
    {
      for j := 0 to k
        invariant forall t', j' :: 0 <= t' < t && 0 <= j' < k ==> localCounts[t', j'] == 0
        invariant forall t', j', x :: 0 <= t' < t && 0 <= j' < k && 0 <= x < d ==> localMeans[t', j', x] == 0.0
        invariant forall j' :: 0 <= j' < j ==> localCounts[t, j'] == 0
        invariant forall j', x :: 0 <= j' < j && 0 <= x < d ==> localMeans[t, j', x] == 0.0
      {
        localCounts[t, j] := 0;
        for x := 0 to d
          modifies localMeans
          invariant forall t', j', x' :: 0 <= t' < t && 0 <= j' < k && 0 <= x' < d ==> localMeans[t', j', x'] == 0.0
          invariant forall j', x' :: 0 <= j' < j && 0 <= x' < d ==> localMeans[t, j', x'] == 0.0
          invariant forall x' :: 0 <= x' < x ==> localMeans[t, j, x'] == 0.0
        {
          localMeans[t, j, x] := 0.0;
        }
      }
    }
  }

  /** Adding the coordinates of one point into bucket `j` of worker `t`
      (src/kmeans.c:170-172). */
  method AddPoint(localMeans: array3<real>, t: nat, j: nat, p: seq<real>)
    requires t < localMeans.Length0 && j < localMeans.Length1 && |p| == localMeans.Length2
    modifies localMeans
    ensures forall t', j', x :: 0 <= t' < localMeans.Length0 && 0 <= j' < localMeans.Length1 && 0 <= x < localMeans.Length2 ==>
      localMeans[t', j', x] == old(localMeans[t', j', x]) + (if t' == t && j' == j then p[x] else 0.0)
  {
    for x := 0 to |p|
      invariant forall t', j', x' :: 0 <= t' < localMeans.Length0 && 0 <= j' < localMeans.Length1 && 0 <= x' < localMeans.Length2 ==>
        localMeans[t', j', x'] == old(localMeans[t', j', x']) + (if t' == t && j' == j && x' < x then p[x'] else 0.0)
    {
      localMeans[t, j, x] := localMeans[t, j, x] + p[x];
    }
  }

  /** Worker `t`'s share of the parallel loop (src/kmeans.c:168-174): the points
      `lo <= i < hi` are added into its own buckets, nobody else's. */
  method AccumulateChunk(d: nat, k: nat, points: seq<seq<real>>, clusters: array<int>, lo: nat, hi: nat, t: nat,
                         localMeans: array3<real>, localCounts: array2<int>)
    requires Shape(points, clusters.Length, d) && lo <= hi <= clusters.Length
    requires forall i :: 0 <= i < clusters.Length ==> 0 <= clusters[i] < k
    requires localMeans.Length0 == localCounts.Length0 && t < localCounts.Length0
    requires localMeans.Length1 == k && localCounts.Length1 == k && localMeans.Length2 == d
    modifies localMeans, localCounts
    ensures forall t', j :: 0 <= t' < localCounts.Length0 && 0 <= j < k ==>
      localCounts[t', j] == old(localCounts[t', j]) + (if t' == t then CountIn(clusters[..], lo, hi, j) else 0)
    ensures forall t', j, x :: 0 <= t' < localMeans.Length0 && 0 <= j < k && 0 <= x < d ==>
      localMeans[t', j, x] == old(localMeans[t', j, x]) + (if t' == t then SumIn(points, d, clusters[..], lo, hi, j, x) else 0.0)
  {
    ghost var c := clusters[..];
    assert forall j :: CountIn(c, lo, lo, j) == 0;
    assert forall j, x :: 0 <= x < d ==> SumIn(points, d, c, lo, lo, j, x) == 0.0;
    for i := lo to hi
      invariant forall t', j :: 0 <= t' < localCounts.Length0 && 0 <= j < k ==>
        localCounts[t', j] == old(localCounts[t', j]) + (if t' == t then CountIn(c, lo, i, j) else 0)
      invariant forall t', j, x :: 0 <= t' < localMeans.Length0 && 0 <= j < k && 0 <= x < d ==>
        localMeans[t', j, x] == old(localMeans[t', j, x]) + (if t' == t then SumIn(points, d, c, lo, i, j, x) else 0.0)
    {
      var j := clusters[i];
      AddPoint(localMeans, t, j, points[i]);
      localCounts[t, j] := localCounts[t, j] + 1;
    }
  }

  /** The merge and division for cluster `j` (src/kmeans.c:179-193), given that worker
      `t` holds the count and sums of its chunk `[bounds[t], bounds[t+1])`. */
  method MergeCluster(d: nat, k: nat, nbThreads: nat, j: nat, ghost points: seq<seq<real>>, ghost clusters: seq<int>,
                      ghost bounds: seq<int>, localMeans: array3<real>, localCounts: array2<int>, means: array2<real>,
                      nbPoints: array<int>)
    requires Shape(points, |clusters|, d) && IsPartition(bounds, |clusters|) && |bounds| == nbThreads + 1
    requires localMeans.Length0 == localCounts.Length0 == nbThreads
    requires localMeans.Length1 == k && localCounts.Length1 == k && localMeans.Length2 == d
    requires means.Length0 == k && means.Length1 == d && nbPoints.Length == k && j < k
    requires forall t, j' :: 0 <= t < |bounds| - 1 && 0 <= j' < k ==>
      localCounts[t, j'] == CountIn(clusters, bounds[t], bounds[t + 1], j')
    requires forall t, j', x :: 0 <= t < |bounds| - 1 && 0 <= j' < k && 0 <= x < d ==>
      localMeans[t, j', x] == SumIn(points, d, clusters, bounds[t], bounds[t + 1], j', x)
    modifies means, nbPoints
    ensures nbPoints[j] == CountIn(clusters, 0, |clusters|, j)
    ensures forall x :: 0 <= x < d ==> means[j, x] == Centroid(points, d, clusters, j, x)
    ensures forall j', x :: 0 <= j' < k && j' != j && 0 <= x < d ==> means[j', x] == old(means[j', x])
    ensures forall j' :: 0 <= j' < k && j' != j ==> nbPoints[j'] == old(nbPoints[j'])
  {
    nbPoints[j] := 0;
    for x := 0 to d
      modifies means
      invariant forall x' :: 0 <= x' < x ==> means[j, x'] == 0.0
      invariant forall j', x' :: 0 <= j' < k && j' != j && 0 <= x' < d ==> means[j', x'] == old(means[j', x'])
    {
      means[j, x] := 0.0;
    }
    for t := 0 to nbThreads
      invariant nbPoints[j] == MergedCount(clusters, bounds, t, j)
      invariant forall x :: 0 <= x < d ==> means[j, x] == MergedSum(points, d, clusters, bounds, t, j, x)
      invariant forall j', x' :: 0 <= j' < k && j' != j && 0 <= x' < d ==> means[j', x'] == old(means[j', x'])
      invariant forall j' :: 0 <= j' < k && j' != j ==> nbPoints[j'] == old(nbPoints[j'])
    {
      nbPoints[j] := nbPoints[j] + localCounts[t, j];
      for x := 0 to d
        modifies means
        invariant forall x' :: 0 <= x' < x ==> means[j, x'] == MergedSum(points, d, clusters, bounds, t + 1, j, x')
        invariant forall x' :: x <= x' < d ==> means[j, x'] == MergedSum(points, d, clusters, bounds, t, j, x')
        invariant forall j', x' :: 0 <= j' < k && j' != j && 0 <= x' < d ==> means[j', x'] == old(means[j', x'])
      {
        means[j, x] := means[j, x] + localMeans[t, j, x];
      }
    }
    MergedCountPrefix(clusters, bounds, nbThreads, j);
    forall x | 0 <= x < d
      ensures means[j, x] == SumIn(points, d, clusters, 0, |clusters|, j, x)
    {
      MergedSumPrefix(points, d, clusters, bounds, nbThreads, j, x);
    }
    if nbPoints[j] > 0 {
      for x := 0 to d
        modifies means
        invariant forall x' :: 0 <= x' < x ==> means[j, x'] == Centroid(points, d, clusters, j, x')
        invariant forall x' :: x <= x' < d ==> means[j, x'] == SumIn(points, d, clusters, 0, |clusters|, j, x')
        invariant forall j', x' :: 0 <= j' < k && j' != j && 0 <= x' < d ==> means[j', x'] == old(means[j', x'])
      {
        means[j, x] := means[j, x] / nbPoints[j] as real;
      }
    } else {
      forall x | 0 <= x < d
        ensures means[j, x] == Centroid(points, d, clusters, j, x)
      {
        EmptyClusterSumIsZero(points, d, clusters, 0, |clusters|, j, x);
      }
    }
  }

  /** `kmeans_compute_means`: every mean becomes the centroid of the points currently
      assigned to it, and a mean with no point becomes all zeros. */
  method KmeansComputeMeans(d: nat, n: nat, k: nat, points: seq<seq<real>>, means: array2<real>, clusters: array<int>,
                            nbThreads: nat)
    requires Shape(points, n, d) && clusters.Length == n
    requires means.Length0 == k && means.Length1 == d
    requires forall i :: 0 <= i < n ==> 0 <= clusters[i] < k
    requires nbThreads > 0
    modifies means
    ensures forall j, x :: 0 <= j < k && 0 <= x < d ==> means[j, x] == Centroid(points, d, clusters[..], j, x)
    ensures Rows(means) == MeansOf(points, d, clusters[..], k)
  {
    ghost var c := clusters[..];
    var nbPoints := new int[k];
    ZeroMeans(means, nbPoints);

    var localMeans := new real[nbThreads, k, d];
    var localCounts := new int[nbThreads, k];
    ZeroLocals(localMeans, localCounts);

    ghost var bounds := StaticBounds(n, nbThreads);
    StaticBoundsPartition(n, nbThreads);
    for t := 0 to nbThreads
      invariant forall t', j :: 0 <= t' < nbThreads && 0 <= j < k ==>
        localCounts[t', j] == if t' < t then CountIn(c, bounds[t'], bounds[t' + 1], j) else 0
      invariant forall t', j, x :: 0 <= t' < nbThreads && 0 <= j < k && 0 <= x < d ==>
        localMeans[t', j, x] == if t' < t then SumIn(points, d, c, bounds[t'], bounds[t' + 1], j, x) else 0.0
    {
      AccumulateChunk(d, k, points, clusters, ChunkStart(n, nbThreads, t), ChunkStart(n, nbThreads, t + 1), t,
                      localMeans, localCounts);
    }

    for j := 0 to k
      modifies means, nbPoints
      invariant forall j', x :: 0 <= j' < j && 0 <= x < d ==> means[j', x] == Centroid(points, d, c, j', x)
      invariant forall j' :: 0 <= j' < j ==> nbPoints[j'] == CountIn(c, 0, n, j')
    {
      MergeCluster(d, k, nbThreads, j, points, c, bounds, localMeans, localCounts, means, nbPoints);
    }
    EqualByEntries(Rows(means), MeansOf(points, d, c, k), k, d);
  }
}
