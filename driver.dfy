/** The clustering driver `kmeans` (src/kmeans.c:24-56): one seeding, then at most
    `max_iter` rounds of assignment and mean update, stopping at the first round
    whose assignment changes nothing. Timing and printing are left out. */
module Driver {
  import opened Matrix
  import opened Init
  import opened Assign
  import opened Reduction
  import opened Update

  /** What a call yields: the `assert(k <= n)` fails, or the loop index is returned. */
  datatype Outcome = AssertionFailure | Iterations(count: int)

  /** State of a run on values: the means and assignment, the loop index `i`, the flags
      returned by every assignment step so far, and how many updates ran. */
  datatype RunState = RunState(means: seq<seq<real>>, clusters: seq<int>, iterations: int, changes: seq<bool>, updates: nat)

  /** Shapes and preconditions that the iteration needs at every step. */
  ghost predicate RunInputs(points: seq<seq<real>>, d: nat, k: nat, maxIter: int, means: seq<seq<real>>, clusters: seq<int>) {
    && Shape(points, |points|, d) && Shape(means, k, d) && |clusters| == |points|
    && (maxIter > 0 && |points| > 0 ==> k > 0)
  }

  /** The loop `for (i = ...; i < max_iter; i++)` from index `i` on, with the flags and
      the update count gathered so far. */
  ghost function Iterate(points: seq<seq<real>>, d: nat, k: nat, maxIter: int, means: seq<seq<real>>, clusters: seq<int>,
                         i: nat, changes: seq<bool>, updates: nat): (r: RunState)
    requires RunInputs(points, d, k, maxIter, means, clusters)
    ensures RunInputs(points, d, k, maxIter, r.means, r.clusters)
    decreases maxIter - i
  {
    if i >= maxIter then RunState(means, clusters, i, changes, updates)
    else
      var step := AssignStep(points, means, d, clusters);
      if !step.1 then RunState(means, step.0, i, changes + [false], updates)
      else Iterate(points, d, k, maxIter, MeansOf(points, d, step.0, k), step.0, i + 1, changes + [true], updates + 1)
  }

  /** The whole loop, from the seeded means and the caller's assignment. */
  ghost function Run(points: seq<seq<real>>, d: nat, k: nat, maxIter: int, means: seq<seq<real>>, clusters: seq<int>): RunState
    requires RunInputs(points, d, k, maxIter, means, clusters)
  {
    Iterate(points, d, k, maxIter, means, clusters, 0, [], 0)
  }

  /** What the iteration promises from index `i` on, given what it has gathered. */
  ghost predicate RunFacts(points: seq<seq<real>>, d: nat, k: nat, maxIter: int, i0: nat, r: RunState)
    requires Shape(points, |points|, d) && Shape(r.means, k, d) && |r.clusters| == |points|
  {
    // the loop index ends between its start and the bound
    && 0 <= r.iterations
    && (i0 <= maxIter ==> i0 <= r.iterations <= maxIter)
    && (i0 > maxIter ==> r.iterations == i0)
    // one flag per assignment step: all true, then a final false when the loop broke
    && |r.changes| == (if r.iterations < maxIter then r.iterations + 1 else r.iterations)
    && (forall t :: 0 <= t < r.iterations ==> r.changes[t])
    && (r.iterations < maxIter ==> !r.changes[r.iterations])
    // one mean update per completed round
    && r.updates == r.iterations
    // when the loop broke, the assignment is a fixed point of the assignment step
    && (r.iterations < maxIter ==> (|points| > 0 ==> k > 0) && r.clusters == AssignAll(points, r.means, d))
  }

  lemma {:induction false} IterateFacts(points: seq<seq<real>>, d: nat, k: nat, maxIter: int, means: seq<seq<real>>,
                                        clusters: seq<int>, i: nat, changes: seq<bool>, updates: nat)
    requires RunInputs(points, d, k, maxIter, means, clusters)
    requires |changes| == i && updates == i && forall t :: 0 <= t < i ==> changes[t]
    ensures RunFacts(points, d, k, maxIter, i, Iterate(points, d, k, maxIter, means, clusters, i, changes, updates))
    decreases maxIter - i
  {
    if i < maxIter {
      var step := AssignStep(points, means, d, clusters);
      if step.1 {
        IterateFacts(points, d, k, maxIter, MeansOf(points, d, step.0, k), step.0, i + 1, changes + [true], updates + 1);
      }
    }
  }

  /** The driver's contract on values: `0 <= i <= max_iter` for `max_iter >= 0`,
      `i < max_iter` exactly when the assignment at round `i` reported no change (and
      then the assignment is a fixed point), and exactly `i` mean updates ran. */
  lemma RunShape(points: seq<seq<real>>, d: nat, k: nat, maxIter: int, means: seq<seq<real>>, clusters: seq<int>)
    requires RunInputs(points, d, k, maxIter, means, clusters)
    ensures var r := Run(points, d, k, maxIter, means, clusters);
      && (maxIter >= 0 ==> 0 <= r.iterations <= maxIter)
      && (maxIter < 0 ==> r.iterations == 0)
      && |r.changes| == (if r.iterations < maxIter then r.iterations + 1 else r.iterations)
      && (r.iterations < maxIter <==> |r.changes| == r.iterations + 1 && !r.changes[r.iterations])
      && (forall t :: 0 <= t < r.iterations ==> r.changes[t])
      && r.updates == r.iterations
      && (r.iterations < maxIter ==> (|points| > 0 ==> k > 0) && r.clusters == AssignAll(points, r.means, d))
  {
    IterateFacts(points, d, k, maxIter, means, clusters, 0, [], 0);
  }

  /** After at least one round, every point's cluster is a valid index, and when a
      round updated the means, each mean is the centroid of the final assignment. */
  lemma {:induction false} IterateResult(points: seq<seq<real>>, d: nat, k: nat, maxIter: int, means: seq<seq<real>>,
                                         clusters: seq<int>, i: nat, changes: seq<bool>, updates: nat)
    requires RunInputs(points, d, k, maxIter, means, clusters)
    requires i > 0 ==> (forall t :: 0 <= t < |clusters| ==> 0 <= clusters[t] < k) && means == MeansOf(points, d, clusters, k)
    ensures var r := Iterate(points, d, k, maxIter, means, clusters, i, changes, updates);
      && (i < maxIter || i > 0 ==> forall t :: 0 <= t < |r.clusters| ==> 0 <= r.clusters[t] < k)
      && (r.iterations > 0 ==> r.means == MeansOf(points, d, r.clusters, k))
    decreases maxIter - i
  {
    if i < maxIter {
      var step := AssignStep(points, means, d, clusters);
      if step.1 {
        IterateResult(points, d, k, maxIter, MeansOf(points, d, step.0, k), step.0, i + 1, changes + [true], updates + 1);
      }
    }
  }

  /** What a caller of the driver can rely on, as facts about the final state. */
  lemma RunSummary(points: seq<seq<real>>, d: nat, k: nat, maxIter: int, means: seq<seq<real>>, clusters: seq<int>)
    requires RunInputs(points, d, k, maxIter, means, clusters)
    ensures var r := Run(points, d, k, maxIter, means, clusters);
      && (maxIter >= 0 ==> 0 <= r.iterations <= maxIter)
      && (maxIter < 0 ==> r.iterations == 0)
      && (maxIter > 0 ==> forall i :: 0 <= i < |r.clusters| ==> 0 <= r.clusters[i] < k)
      && (r.iterations < maxIter ==> (|points| > 0 ==> k > 0) && r.clusters == AssignAll(points, r.means, d))
      && (r.iterations > 0 ==> r.means == MeansOf(points, d, r.clusters, k))
  {
    RunShape(points, d, k, maxIter, means, clusters);
    IterateResult(points, d, k, maxIter, means, clusters, 0, [], 0);
  }

  /** The loop of `kmeans` at index `i` with means `m` and assignment `c` is on its way
      to `target`. */
  ghost predicate OnTrack(points: seq<seq<real>>, d: nat, k: nat, maxIter: int, m: seq<seq<real>>, c: seq<int>,
                          i: nat, changes: seq<bool>, updates: nat, target: RunState)
  {
    && RunInputs(points, d, k, maxIter, m, c)
    && Iterate(points, d, k, maxIter, m, c, i, changes, updates) == target
  }

  /** One pass of the loop body of `kmeans` (src/kmeans.c:38-51): an assignment step,
      then a mean update only when the assignment changed. */
  method Round(d: nat, n: nat, k: nat, points: seq<seq<real>>, means: array2<real>, clusters: array<int>, nbThreads: nat)
    returns (changed: bool)
    requires Shape(points, n, d) && clusters.Length == n
    requires means.Length0 == k && means.Length1 == d
    requires n > 0 ==> k > 0
    requires nbThreads > 0
    modifies means, clusters
    ensures var step := AssignStep(points, old(Rows(means)), d, old(clusters[..]));
      && clusters[..] == step.0 && changed == step.1
      && Rows(means) == if changed then MeansOf(points, d, step.0, k) else old(Rows(means))
  {
    changed := KmeansAssignClusters(d, n, k, points, means, clusters);
    if changed {
      KmeansComputeMeans(d, n, k, points, means, clusters, nbThreads);
    }
  }

  /** The loop of `kmeans` (src/kmeans.c:33-55) from the seeded means: rounds of
      assignment and update until an assignment changes nothing or `max_iter` rounds
      have run. Returns the final loop index `i`. */
  method Rounds(d: nat, n: nat, k: nat, points: seq<seq<real>>, means: array2<real>, clusters: array<int>, maxIter: int,
                nbThreads: nat)
    returns (i: int)
    requires Shape(points, n, d) && clusters.Length == n
    requires means.Length0 == k && means.Length1 == d
    requires maxIter > 0 && n > 0 ==> k > 0
    requires nbThreads > 0
    modifies means, clusters
    ensures var r := Run(points, d, k, maxIter, old(Rows(means)), old(clusters[..]));
      && i == r.iterations && Rows(means) == r.means && clusters[..] == r.clusters
    ensures maxIter >= 0 ==> 0 <= i <= maxIter
    ensures maxIter < 0 ==> i == 0
  {
    ghost var gm, gc := Rows(means), clusters[..];
    ghost var target := Run(points, d, k, maxIter, gm, gc);
    ghost var changes: seq<bool> := [];
    ghost var updates: nat := 0;
    i := 0;
    while i < maxIter
      invariant 0 <= i && (i <= maxIter || i == 0)
      invariant Rows(means) == gm && clusters[..] == gc
      invariant Shape(gm, k, d) && |gc| == n
      invariant OnTrack(points, d, k, maxIter, gm, gc, i, changes, updates, target)
    {
      ghost var step := AssignStep(points, gm, d, gc);
      var changed := Round(d, n, k, points, means, clusters, nbThreads);
      if !changed {
        changes, gc := changes + [false], step.0;
        break;
      }
      changes, updates := changes + [true], updates + 1;
      gm, gc := MeansOf(points, d, step.0, k), step.0;
      i := i + 1;
    }
  }

  /** `kmeans`. `nb_threads` is passed on to the mean update; the `*rand_state` left by
      the seeding is returned as `randState'`. */
  method KMeans(d: nat, n: nat, k: nat, points: seq<seq<real>>, means: array2<real>, clusters: array<int>, maxIter: int,
                randState: Seed, rand: RandR, nbThreads: nat)
    returns (result: Outcome, randState': Seed)
    requires Shape(points, n, d) && clusters.Length == n
    requires means.Length0 == k && means.Length1 == d
    requires maxIter > 0 && n > 0 ==> k > 0
    requires nbThreads > 0
    modifies means, clusters
    ensures k > n ==> result == AssertionFailure && randState' == randState
    ensures k > n ==> unchanged(means, clusters)
    ensures k <= n ==> var r := Run(points, d, k, maxIter, InitialMeans(points, k, rand, randState), old(clusters[..]));
      && result == Iterations(r.iterations)
      && Rows(means) == r.means && clusters[..] == r.clusters
      && randState' == Shuffle(n, rand, randState).state
    ensures k <= n && maxIter >= 0 ==> 0 <= result.count <= maxIter
    ensures k <= n && maxIter < 0 ==> result == Iterations(0)
  {
    if k > n {
      return AssertionFailure, randState;
    }
    randState' := KmeansInit(d, n, k, points, means, randState, rand);
    var i := Rounds(d, n, k, points, means, clusters, maxIter, nbThreads);
    result := Iterations(i);
  }
}
