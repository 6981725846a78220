/** Nearest-mean assignment, `kmeans_assign_clusters` (src/kmeans.c:77-104). */
module Assign {
  import opened Matrix
  import opened Distance

  /** `j` is the smallest index among the means nearest to `p`: no mean is strictly
      nearer, and every mean before `j` is strictly farther. */
  ghost predicate IsFirstArgMin(p: seq<real>, means: seq<seq<real>>, j: int)
    requires Shape(means, |means|, |p|)
  {
    && 0 <= j < |means|
    && (forall j' :: 0 <= j' < |means| ==> SqDist(p, means[j]) <= SqDist(p, means[j']))
    && (forall j' :: 0 <= j' < j ==> SqDist(p, means[j']) > SqDist(p, means[j]))
  }

  /** A mean no farther than the first argmin cannot come before it. */
  lemma NotBeforeFirstArgMin(p: seq<real>, means: seq<seq<real>>, j: int, j': int)
    requires Shape(means, |means|, |p|)
    requires IsFirstArgMin(p, means, j) && 0 <= j' < |means|
    requires SqDist(p, means[j']) <= SqDist(p, means[j])
    ensures j <= j'
  {
  }

  /** At most one index is the first argmin. */
  lemma FirstArgMinUnique(p: seq<real>, means: seq<seq<real>>, j1: int, j2: int)
    requires Shape(means, |means|, |p|)
    requires IsFirstArgMin(p, means, j1) && IsFirstArgMin(p, means, j2)
    ensures j1 == j2
  {
    NotBeforeFirstArgMin(p, means, j1, j2);
    NotBeforeFirstArgMin(p, means, j2, j1);
  }

  /** The scan over the first `m` means (src/kmeans.c:88-96): `min_index` starts at 0
      and moves to `j` only when `j` is strictly nearer. */
  ghost function NearestIn(p: seq<real>, means: seq<seq<real>>, m: nat): (r: nat)
    requires 1 <= m <= |means| && Shape(means, |means|, |p|)
    ensures r < m
  {
    if m == 1 then 0
    else
      var best := NearestIn(p, means, m - 1);
      if SqDist(p, means[m - 1]) < SqDist(p, means[best]) then m - 1 else best
  }

  ghost function Nearest(p: seq<real>, means: seq<seq<real>>): nat
    requires 1 <= |means| && Shape(means, |means|, |p|)
  {
    NearestIn(p, means, |means|)
  }

  /** The scan finds the first argmin over the means it has seen. */
  lemma {:induction false} NearestInIsFirstArgMin(p: seq<real>, means: seq<seq<real>>, m: nat)
    requires 1 <= m <= |means| && Shape(means, |means|, |p|)
    ensures IsFirstArgMin(p, means[..m], NearestIn(p, means, m))
  {
    if m > 1 {
      NearestInIsFirstArgMin(p, means, m - 1);
      assert means[..m][..m - 1] == means[..m - 1];
    }
  }

  /** The strict `<` scan picks the smallest index nearest to the point. */
  lemma NearestIsFirstArgMin(p: seq<real>, means: seq<seq<real>>)
    requires 1 <= |means| && Shape(means, |means|, |p|)
    ensures IsFirstArgMin(p, means, Nearest(p, means))
  {
    NearestInIsFirstArgMin(p, means, |means|);
    assert means[..|means|] == means;
  }

  /** The cluster every point is assigned to. */
  ghost function AssignAll(points: seq<seq<real>>, means: seq<seq<real>>, d: nat): (c: seq<int>)
    requires Shape(points, |points|, d) && Shape(means, |means|, d)
    requires |points| > 0 ==> |means| > 0
    ensures |c| == |points|
    ensures forall i :: 0 <= i < |c| ==> 0 <= c[i] < |means|
  {
    seq(|points|, i requires 0 <= i < |points| => Nearest(points[i], means))
  }

  /** One assignment step on values: the new assignment and the returned flag. */
  ghost function AssignStep(points: seq<seq<real>>, means: seq<seq<real>>, d: nat, clusters: seq<int>): (r: (seq<int>, bool))
    requires Shape(points, |points|, d) && Shape(means, |means|, d) && |clusters| == |points|
    requires |points| > 0 ==> |means| > 0
  {
    var c := AssignAll(points, means, d);
    (c, c != clusters)
  }

  /** Running the step again with the same points and means changes nothing. */
  lemma AssignStepIdempotent(points: seq<seq<real>>, means: seq<seq<real>>, d: nat, clusters: seq<int>)
    requires Shape(points, |points|, d) && Shape(means, |means|, d) && |clusters| == |points|
    requires |points| > 0 ==> |means| > 0
    ensures var first := AssignStep(points, means, d, clusters);
      AssignStep(points, means, d, first.0) == (first.0, false)
  {
  }

  /** What one step means: every point goes to the first nearest mean, and the
      flag is raised exactly when some point moved. */
  lemma AssignStepMeaning(points: seq<seq<real>>, means: seq<seq<real>>, d: nat, clusters: seq<int>)
    requires Shape(points, |points|, d) && Shape(means, |means|, d) && |clusters| == |points|
    requires |points| > 0 ==> |means| > 0
    ensures var r := AssignStep(points, means, d, clusters);
      && |r.0| == |points|
      && (forall i :: 0 <= i < |points| ==> 0 <= r.0[i] < |means| && IsFirstArgMin(points[i], means, r.0[i]))
      && (r.1 <==> exists i :: 0 <= i < |points| && r.0[i] != clusters[i])
  {
    var c := AssignAll(points, means, d);
    forall i | 0 <= i < |points|
      ensures IsFirstArgMin(points[i], means, c[i])
    {
      NearestIsFirstArgMin(points[i], means);
    }
    if c != clusters {
      var i :| 0 <= i < |points| && c[i] != clusters[i];
    }
  }

  /** The inner scan of `kmeans_assign_clusters` for one point: the index of the
      nearest mean, ties going to the smaller index. */
  method NearestMean(d: nat, k: nat, p: seq<real>, means: array2<real>) returns (minIndex: int)
    requires |p| == d && means.Length0 == k && means.Length1 == d && k > 0
    ensures minIndex == Nearest(p, Rows(means))
  {
    ghost var m := Rows(means);
    minIndex := 0;
    var minDist := KmeansDist(d, p, Row(means, 0));
    for j := 1 to k
      invariant minIndex == NearestIn(p, m, j)
      invariant minDist == SqDist(p, m[minIndex])
    {
      var dist := KmeansDist(d, p, Row(means, j));
      if dist < minDist {
        minDist := dist;
        minIndex := j;
      }
    }
  }

  /** `kmeans_assign_clusters`. The OpenMP loop with its `||` reduction of `changed`
      is run sequentially; `nb_threads` has no effect on the result. */
  method KmeansAssignClusters(d: nat, n: nat, k: nat, points: seq<seq<real>>, means: array2<real>, clusters: array<int>)
    returns (changed: bool)
    requires Shape(points, n, d) && clusters.Length == n
    requires means.Length0 == k && means.Length1 == d
    requires n > 0 ==> k > 0
    modifies clusters
    ensures (clusters[..], changed) == AssignStep(points, Rows(means), d, old(clusters[..]))
  {
    ghost var m := Rows(means);
    changed := false;
    for i := 0 to n
      invariant forall t :: 0 <= t < i ==> clusters[t] == Nearest(points[t], m)
      invariant forall t :: i <= t < n ==> clusters[t] == old(clusters[t])
      invariant changed <==> exists t :: 0 <= t < i && clusters[t] != old(clusters[t])
    {
      var minIndex := NearestMean(d, k, points[i], means);
      if clusters[i] != minIndex {
        clusters[i] := minIndex;
        changed := true;
      }
    }
    assert clusters[..] == AssignAll(points, m, d);
    assert changed <==> clusters[..] != old(clusters[..]);
  }
}
