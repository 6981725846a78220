/** Squared Euclidean distance, `kmeans_dist` (src/kmeans.c:15-22). */
module Distance {

  /** Sum over the coordinates `x < |p|` of `(p[x] - q[x])^2`, accumulated from the
      first coordinate upwards as the loop of `kmeans_dist` does. */
  ghost function SqDist(p: seq<real>, q: seq<real>): real
    requires |p| == |q|
    decreases |p|
  {
    if |p| == 0 then 0.0
    else
      var delta := p[|p| - 1] - q[|q| - 1];
      SqDist(p[..|p| - 1], q[..|q| - 1]) + delta * delta
  }

  /** `kmeans_dist(d, p1, p2)`: the loop accumulates `delta * delta` into `dist`. */
  method KmeansDist(d: nat, p1: seq<real>, p2: seq<real>) returns (dist: real)
    requires |p1| == d && |p2| == d
    ensures dist == SqDist(p1, p2)
  {
    dist := 0.0;
    for i := 0 to d
      invariant dist == SqDist(p1[..i], p2[..i])
    {
      var delta := p1[i] - p2[i];
      assert p1[..i + 1][..i] == p1[..i] && p2[..i + 1][..i] == p2[..i];
      dist := dist + delta * delta;
    }
    assert p1[..d] == p1 && p2[..d] == p2;
  }

  lemma {:induction false} SqDistNonNegative(p: seq<real>, q: seq<real>)
    requires |p| == |q|
    ensures SqDist(p, q) >= 0.0
    decreases |p|
  {
    if |p| > 0 {
      SqDistNonNegative(p[..|p| - 1], q[..|q| - 1]);
    }
  }

  lemma {:induction false} SqDistSymmetric(p: seq<real>, q: seq<real>)
    requires |p| == |q|
    ensures SqDist(p, q) == SqDist(q, p)
    decreases |p|
  {
    if |p| > 0 {
      SqDistSymmetric(p[..|p| - 1], q[..|q| - 1]);
    }
  }

  /** A vector is at distance zero from itself. */
  lemma {:induction false} SqDistSelf(p: seq<real>)
    ensures SqDist(p, p) == 0.0
    decreases |p|
  {
    if |p| > 0 {
      SqDistSelf(p[..|p| - 1]);
    }
  }
}
