/** The arithmetic behind `kmeans_compute_means` (src/kmeans.c:106-195), on values:
    per-cluster counts and coordinate sums over a range of points, their merge across
    a static partition of the points among workers, and the resulting centroids. */
module Reduction {
  import opened Matrix

  /** Number of `i` in `[lo, hi)` with `clusters[i] == j`. */
  ghost function CountIn(clusters: seq<int>, lo: nat, hi: nat, j: int): nat
    requires lo <= hi <= |clusters|
    decreases hi
  {
    if hi == lo then 0
    else CountIn(clusters, lo, hi - 1, j) + (if clusters[hi - 1] == j then 1 else 0)
  }

  /** Sum of coordinate `x` of the points `i` in `[lo, hi)` with `clusters[i] == j`. */
  ghost function SumIn(points: seq<seq<real>>, d: nat, clusters: seq<int>, lo: nat, hi: nat, j: int, x: nat): real
    requires Shape(points, |clusters|, d) && x < d
    requires lo <= hi <= |clusters|
    decreases hi
  {
    if hi == lo then 0.0
    else SumIn(points, d, clusters, lo, hi - 1, j, x) + (if clusters[hi - 1] == j then points[hi - 1][x] else 0.0)
  }

  /** Counting over `[lo, hi)` is counting over `[lo, mid)` and then `[mid, hi)`. */
  lemma {:induction false} CountInSplit(clusters: seq<int>, lo: nat, mid: nat, hi: nat, j: int)
    requires lo <= mid <= hi <= |clusters|
    ensures CountIn(clusters, lo, hi, j) == CountIn(clusters, lo, mid, j) + CountIn(clusters, mid, hi, j)
    decreases hi
  {
    if hi > mid {
      CountInSplit(clusters, lo, mid, hi - 1, j);
    }
  }

  lemma {:induction false} SumInSplit(points: seq<seq<real>>, d: nat, clusters: seq<int>, lo: nat, mid: nat, hi: nat, j: int, x: nat)
    requires Shape(points, |clusters|, d) && x < d
    requires lo <= mid <= hi <= |clusters|
    ensures SumIn(points, d, clusters, lo, hi, j, x)
         == SumIn(points, d, clusters, lo, mid, j, x) + SumIn(points, d, clusters, mid, hi, j, x)
    decreases hi
  {
    if hi > mid {
      SumInSplit(points, d, clusters, lo, mid, hi - 1, j, x);
    }
  }

  /** A cluster with no point has a zero coordinate sum. */
  lemma {:induction false} EmptyClusterSumIsZero(points: seq<seq<real>>, d: nat, clusters: seq<int>, lo: nat, hi: nat, j: int, x: nat)
    requires Shape(points, |clusters|, d) && x < d
    requires lo <= hi <= |clusters|
    requires CountIn(clusters, lo, hi, j) == 0
    ensures SumIn(points, d, clusters, lo, hi, j, x) == 0.0
    decreases hi
  {
    if hi > lo {
      EmptyClusterSumIsZero(points, d, clusters, lo, hi - 1, j, x);
    }
  }

  /** Sum over the clusters `j < m` of their counts in `[0, hi)`. */
  ghost function CountsUpTo(clusters: seq<int>, hi: nat, m: nat): nat
    requires hi <= |clusters|
  {
    if m == 0 then 0 else CountsUpTo(clusters, hi, m - 1) + CountIn(clusters, 0, hi, m - 1)
  }

  /** One more point adds one to exactly the bucket of its cluster. */
  lemma {:induction false} CountsUpToStep(clusters: seq<int>, hi: nat, m: nat)
    requires hi < |clusters|
    ensures CountsUpTo(clusters, hi + 1, m)
         == CountsUpTo(clusters, hi, m) + (if 0 <= clusters[hi] < m then 1 else 0)
  {
    if m > 0 {
      CountsUpToStep(clusters, hi, m - 1);
    }
  }

  /** When every assignment is in `[0, k)`, the `k` counts add up to the number of points. */
  lemma {:induction false} CountsSumToN(clusters: seq<int>, hi: nat, k: nat)
    requires hi <= |clusters|
    requires forall i :: 0 <= i < |clusters| ==> 0 <= clusters[i] < k
    ensures CountsUpTo(clusters, hi, k) == hi
  {
    if hi == 0 {
      ZeroCounts(clusters, k);
    } else {
      CountsSumToN(clusters, hi - 1, k);
      CountsUpToStep(clusters, hi - 1, k);
    }
  }

  lemma {:induction false} ZeroCounts(clusters: seq<int>, m: nat)
    ensures CountsUpTo(clusters, 0, m) == 0
  {
    if m > 0 {
      ZeroCounts(clusters, m - 1);
    }
  }

  /** Worker boundaries: worker `t` owns `[bounds[t], bounds[t+1])`, the first starts
      at 0, the last ends at `n`, and the boundaries never decrease. */
  ghost predicate IsPartition(bounds: seq<int>, n: nat) {
    && |bounds| >= 1
    && bounds[0] == 0
    && bounds[|bounds| - 1] == n
    && forall s, t :: 0 <= s <= t < |bounds| ==> bounds[s] <= bounds[t]
  }

  /** Counts of the first `t` workers added bucket by bucket (src/kmeans.c:183-184). */
  ghost function MergedCount(clusters: seq<int>, bounds: seq<int>, t: nat, j: int): nat
    requires IsPartition(bounds, |clusters|) && t < |bounds|
  {
    if t == 0 then 0
    else MergedCount(clusters, bounds, t - 1, j) + CountIn(clusters, bounds[t - 1], bounds[t], j)
  }

  /** Sums of the first `t` workers added bucket by bucket (src/kmeans.c:185-187). */
  ghost function MergedSum(points: seq<seq<real>>, d: nat, clusters: seq<int>, bounds: seq<int>, t: nat, j: int, x: nat): real
    requires Shape(points, |clusters|, d) && x < d
    requires IsPartition(bounds, |clusters|) && t < |bounds|
  {
    if t == 0 then 0.0
    else MergedSum(points, d, clusters, bounds, t - 1, j, x) + SumIn(points, d, clusters, bounds[t - 1], bounds[t], j, x)
  }

  /** Merging the first `t` workers' counts gives the count over `[0, bounds[t])`. */
  lemma {:induction false} MergedCountPrefix(clusters: seq<int>, bounds: seq<int>, t: nat, j: int)
    requires IsPartition(bounds, |clusters|) && t < |bounds|
    ensures MergedCount(clusters, bounds, t, j) == CountIn(clusters, 0, bounds[t], j)
  {
    if t > 0 {
      MergedCountPrefix(clusters, bounds, t - 1, j);
      CountInSplit(clusters, 0, bounds[t - 1], bounds[t], j);
    }
  }

  lemma {:induction false} MergedSumPrefix(points: seq<seq<real>>, d: nat, clusters: seq<int>, bounds: seq<int>, t: nat, j: int, x: nat)
    requires Shape(points, |clusters|, d) && x < d
    requires IsPartition(bounds, |clusters|) && t < |bounds|
    ensures MergedSum(points, d, clusters, bounds, t, j, x) == SumIn(points, d, clusters, 0, bounds[t], j, x)
  {
    if t > 0 {
      MergedSumPrefix(points, d, clusters, bounds, t - 1, j, x);
      SumInSplit(points, d, clusters, 0, bounds[t - 1], bounds[t], j, x);
    }
  }

  /** The merged count and sum of a cluster do not depend on how the points were
      split among the workers: any two partitions give the same totals. */
  lemma PartitionIndependent(points: seq<seq<real>>, d: nat, clusters: seq<int>, b1: seq<int>, b2: seq<int>, j: int, x: nat)
    requires Shape(points, |clusters|, d) && x < d
    requires IsPartition(b1, |clusters|) && IsPartition(b2, |clusters|)
    ensures MergedCount(clusters, b1, |b1| - 1, j) == MergedCount(clusters, b2, |b2| - 1, j)
    ensures MergedSum(points, d, clusters, b1, |b1| - 1, j, x) == MergedSum(points, d, clusters, b2, |b2| - 1, j, x)
  {
    MergedCountPrefix(clusters, b1, |b1| - 1, j);
    MergedCountPrefix(clusters, b2, |b2| - 1, j);
    MergedSumPrefix(points, d, clusters, b1, |b1| - 1, j, x);
    MergedSumPrefix(points, d, clusters, b2, |b2| - 1, j, x);
  }

  /** First point of worker `t` under `schedule(static)` as libgomp splits `n` points
      among `nbThreads` workers: `n / nbThreads` each, and one more for each of the
      first `n % nbThreads` workers. */
  function ChunkStart(n: nat, nbThreads: nat, t: nat): nat
    requires nbThreads > 0 && t <= nbThreads
  {
    t * (n / nbThreads) + (if t < n % nbThreads then t else n % nbThreads)
  }

  lemma ChunkStartMonotone(n: nat, nbThreads: nat, s: nat, t: nat)
    requires nbThreads > 0 && s <= t <= nbThreads
    ensures ChunkStart(n, nbThreads, s) <= ChunkStart(n, nbThreads, t)
  {
    var q := n / nbThreads;
    assert s * q <= t * q by {
      assert t * q == s * q + (t - s) * q;
    }
  }

  ghost function StaticBounds(n: nat, nbThreads: nat): (b: seq<int>)
    requires nbThreads > 0
    ensures |b| == nbThreads + 1
    ensures forall t :: 0 <= t <= nbThreads ==> b[t] == ChunkStart(n, nbThreads, t)
  {
    seq(nbThreads + 1, t requires 0 <= t <= nbThreads => ChunkStart(n, nbThreads, t))
  }

  /** The static split covers `[0, n)` with contiguous, ordered chunks. */
  lemma StaticBoundsPartition(n: nat, nbThreads: nat)
    requires nbThreads > 0
    ensures IsPartition(StaticBounds(n, nbThreads), n)
  {
    var b := StaticBounds(n, nbThreads);
    forall s, t | 0 <= s <= t < |b|
      ensures b[s] <= b[t]
    {
      ChunkStartMonotone(n, nbThreads, s, t);
    }
    assert b[nbThreads] == nbThreads * (n / nbThreads) + n % nbThreads;
  }

  /** New coordinate `x` of mean `j`: the average of the assigned points' coordinate,
      or 0 when no point is assigned (src/kmeans.c:178-194). */
  ghost function Centroid(points: seq<seq<real>>, d: nat, clusters: seq<int>, j: int, x: nat): real
    requires Shape(points, |clusters|, d) && x < d
  {
    var count := CountIn(clusters, 0, |clusters|, j);
    var sum := SumIn(points, d, clusters, 0, |clusters|, j, x);
    if count > 0 then sum / count as real else 0.0
  }

  /** Every coordinate of every mean after the update. */
  ghost function MeansOf(points: seq<seq<real>>, d: nat, clusters: seq<int>, k: nat): (m: seq<seq<real>>)
    requires Shape(points, |clusters|, d)
    ensures Shape(m, k, d)
  {
    seq(k, j requires 0 <= j < k => seq(d, x requires 0 <= x < d => Centroid(points, d, clusters, j, x)))
  }

  /** A non-empty cluster's mean times its size is its coordinate sum; an empty
      cluster's mean is all zeros. */
  lemma CentroidIsMean(points: seq<seq<real>>, d: nat, clusters: seq<int>, j: int, x: nat)
    requires Shape(points, |clusters|, d) && x < d
    ensures var count := CountIn(clusters, 0, |clusters|, j);
      && (count > 0 ==> Centroid(points, d, clusters, j, x) * count as real == SumIn(points, d, clusters, 0, |clusters|, j, x))
      && (count == 0 ==> Centroid(points, d, clusters, j, x) == 0.0)
  {
  }
}
