/** Seeding of the means, `kmeans_init` (src/kmeans.c:58-75): a Fisher-Yates shuffle
    of the point indices driven by `rand_r`, then the first `k` shuffled points are
    copied into `means`. */
module Init {
  import opened Matrix

  /** The `unsigned int` state that `rand_r` reads and updates. */
  type Seed = s: int | 0 <= s < 0x1_0000_0000

  /** glibc's RAND_MAX: `rand_r` returns a value in [0, RAND_MAX]. */
  const RAND_MAX: int := 0x7FFF_FFFF

  type RandValue = r: int | 0 <= r <= RAND_MAX

  /** `rand_r` as a deterministic function of the state: the drawn value and the
      state it leaves behind. Its internals are a parameter of the model. */
  type RandR = Seed -> (RandValue, Seed)

  /** The swap partner `rand_r(...) % (i + 1)` of position `i`. The drawn value is
      non-negative, so C's truncating `%` agrees with Dafny's. */
  function SwapPartner(r: RandValue, i: nat): (j: nat)
    ensures j <= i
  {
    r % (i + 1)
  }

  /** `s` lists each of `0..n-1` exactly once. */
  ghost predicate IsPermutation(s: seq<int>, n: nat) {
    && |s| == n
    && (forall i :: 0 <= i < n ==> 0 <= s[i] < n)
    && (forall i, j :: 0 <= i < j < n ==> s[i] != s[j])
  }

  function Identity(n: nat): (s: seq<int>)
    ensures IsPermutation(s, n)
  {
    seq(n, i requires 0 <= i < n => i)
  }

  /** The exchange of entries `i` and `j` done through `temp` (src/kmeans.c:65-67). */
  function Swap(a: seq<int>, i: nat, j: nat): seq<int>
    requires i < |a| && j < |a|
  {
    a[i := a[j]][j := a[i]]
  }

  /** A swap keeps the multiset of entries. */
  lemma SwapMultiset(a: seq<int>, i: nat, j: nat)
    requires i < |a| && j < |a|
    ensures multiset(Swap(a, i, j)) == multiset(a)
  {
    if i != j {
      var c := a[i := a[j]];
      assert multiset(c) == multiset(a) - multiset{a[i]} + multiset{a[j]};
      assert Swap(a, i, j) == c[j := a[i]] && c[j] == a[j];
      assert multiset(Swap(a, i, j)) == multiset(c) - multiset{a[j]} + multiset{a[i]};
    }
  }

  /** A swap keeps a permutation a permutation. */
  lemma SwapPermutation(a: seq<int>, i: nat, j: nat)
    requires i < |a| && j < |a|
    ensures IsPermutation(a, |a|) ==> IsPermutation(Swap(a, i, j), |a|)
  {
    var b := Swap(a, i, j);
    forall x, y | IsPermutation(a, |a|) && 0 <= x < y < |a|
      ensures b[x] != b[y]
    {
      var x' := if x == i then j else if x == j then i else x;
      var y' := if y == i then j else if y == j then i else y;
      assert b[x] == a[x'] && b[y] == a[y'];
      assert x' != y';
    }
  }

  /** Result of the shuffle: the index array and the state left in `*rand_state`. */
  datatype Shuffled = Shuffled(indices: seq<int>, state: Seed)

  /** The descending loop `for (i = n-1; i > 0; i--)` from position `i` on. */
  function ShuffleFrom(a: seq<int>, i: int, rand: RandR, state: Seed): (r: Shuffled)
    requires i < |a|
    ensures |r.indices| == |a|
    decreases i
  {
    if i <= 0 then Shuffled(a, state)
    else
      var draw := rand(state);
      var j := SwapPartner(draw.0, i);
      ShuffleFrom(Swap(a, i, j), i - 1, rand, draw.1)
  }

  /** The shuffle loop turns a permutation into a permutation. */
  lemma {:induction false} ShuffleFromPermutes(a: seq<int>, i: int, rand: RandR, state: Seed)
    requires i < |a| && IsPermutation(a, |a|)
    ensures IsPermutation(ShuffleFrom(a, i, rand, state).indices, |a|)
    decreases i
  {
    if i > 0 {
      var draw := rand(state);
      var j := SwapPartner(draw.0, i);
      SwapPermutation(a, i, j);
      ShuffleFromPermutes(Swap(a, i, j), i - 1, rand, draw.1);
    }
  }

  /** The shuffle only moves entries around: it keeps their multiset. */
  lemma {:induction false} ShuffleFromKeepsEntries(a: seq<int>, i: int, rand: RandR, state: Seed)
    requires i < |a|
    ensures multiset(ShuffleFrom(a, i, rand, state).indices) == multiset(a)
    decreases i
  {
    if i > 0 {
      var draw := rand(state);
      var j := SwapPartner(draw.0, i);
      SwapMultiset(a, i, j);
      ShuffleFromKeepsEntries(Swap(a, i, j), i - 1, rand, draw.1);
    }
  }

  /** The whole shuffle of `0..n-1` starting from `*rand_state == seed`. */
  function Shuffle(n: nat, rand: RandR, seed: Seed): (r: Shuffled)
    ensures IsPermutation(r.indices, n)
  {
    ShuffleFromPermutes(Identity(n), n - 1, rand, seed);
    ShuffleFrom(Identity(n), n - 1, rand, seed)
  }

  /** The shuffled index array holds exactly the indices `0..n-1`. */
  lemma ShuffleIsPermutationOfIndices(n: nat, rand: RandR, seed: Seed)
    ensures multiset(Shuffle(n, rand, seed).indices) == multiset(Identity(n))
  {
    ShuffleFromKeepsEntries(Identity(n), n - 1, rand, seed);
  }

  /** The initial means: row `i` is the point at the `i`-th shuffled index, so the `k`
      means are copies of `k` different points. */
  function InitialMeans(points: seq<seq<real>>, k: nat, rand: RandR, seed: Seed): (m: seq<seq<real>>)
    requires k <= |points|
    ensures |m| == k
    ensures var idx := Shuffle(|points|, rand, seed).indices;
      && (forall i :: 0 <= i < k ==> 0 <= idx[i] < |points| && m[i] == points[idx[i]])
      && (forall i, j :: 0 <= i < j < k ==> idx[i] != idx[j])
  {
    var idx := Shuffle(|points|, rand, seed).indices;
    seq(k, i requires 0 <= i < k => points[idx[i]])
  }

  /** The shuffle loop at position `i`, with index array `a` and state `state`, is on
      its way to `target`. */
  ghost predicate ShuffleOnTrack(a: seq<int>, i: int, rand: RandR, state: Seed, target: Shuffled)
  {
    i < |a| && ShuffleFrom(a, i, rand, state) == target
  }

  /** The freshly allocated index array of `kmeans_init` (src/kmeans.c:59-62), filled
      with `0..n-1`. */
  method IdentityIndices(n: nat) returns (indices: array<int>)
    ensures fresh(indices)
    ensures indices[..] == Identity(n)
  {
    indices := new int[n];
    for i := 0 to n
      invariant forall t :: 0 <= t < i ==> indices[t] == t
    {
      indices[i] := i;
    }
  }

  /** The index array of `kmeans_init` (src/kmeans.c:59-68): filled with `0..n-1`,
      then shuffled in place from the last position down to position 1. */
  method ShuffleIndices(n: nat, randState: Seed, rand: RandR) returns (indices: array<int>, randState': Seed)
    ensures fresh(indices)
    ensures Shuffled(indices[..], randState') == Shuffle(n, rand, randState)
  {
    indices := IdentityIndices(n);
    randState' := randState;
    var i := n - 1;
    while i > 0
      invariant -1 <= i < n
      invariant ShuffleOnTrack(indices[..], i, rand, randState', Shuffle(n, rand, randState))
    {
      var draw := rand(randState');
      var j := SwapPartner(draw.0, i);
      ghost var before := indices[..];
      var temp := indices[i];
      indices[i] := indices[j];
      indices[j] := temp;
      assert indices[..] == Swap(before, i, j);
      randState' := draw.1;
      i := i - 1;
    }
  }

  /** `kmeans_init`: returns the new `*rand_state`. */
  method KmeansInit(d: nat, n: nat, k: nat, points: seq<seq<real>>, means: array2<real>, randState: Seed, rand: RandR)
    returns (randState': Seed)
    requires Shape(points, n, d) && k <= n
    requires means.Length0 == k && means.Length1 == d
    modifies means
    ensures var s := Shuffle(n, rand, randState);
      && randState' == s.state
      && (forall i, x :: 0 <= i < k && 0 <= x < d ==> means[i, x] == points[s.indices[i]][x])
    ensures Rows(means) == InitialMeans(points, k, rand, randState)
  {
    var indices;
    indices, randState' := ShuffleIndices(n, randState, rand);
    ghost var idx := indices[..];
    assert IsPermutation(idx, n);
    for i := 0 to k
      invariant indices[..] == idx
      invariant forall t, x :: 0 <= t < i && 0 <= x < d ==> means[t, x] == points[idx[t]][x]
    {
      for x := 0 to d
        invariant indices[..] == idx
        invariant forall t, x' :: 0 <= t < i && 0 <= x' < d ==> means[t, x'] == points[idx[t]][x']
        invariant forall x' :: 0 <= x' < x ==> means[i, x'] == points[idx[i]][x']
      {
        means[i, x] := points[indices[i]][x];
      }
    }
    EqualByEntries(Rows(means), InitialMeans(points, k, rand, randState), k, d);
  }
}
