/** Row-major numeric buffers: the `double points[n][d]` and `double means[k][d]`
    parameters of the clustering engine, with real coordinates instead of doubles. */
module Matrix {

  /** `m` holds `rows` vectors of exactly `d` coordinates each. */
  ghost predicate Shape(m: seq<seq<real>>, rows: int, d: int) {
    |m| == rows && forall i :: 0 <= i < |m| ==> |m[i]| == d
  }

  /** Row `i` of a two-dimensional array, read as a vector (what `means[i]` denotes
      when it is passed to the distance function). */
  function Row(a: array2<real>, i: nat): (r: seq<real>)
    reads a
    requires i < a.Length0
    ensures |r| == a.Length1
    ensures forall x :: 0 <= x < a.Length1 ==> r[x] == a[i, x]
  {
    seq(a.Length1, x requires 0 <= x < a.Length1 reads a => a[i, x])
  }

  /** The whole array as a sequence of rows. */
  ghost function Rows(a: array2<real>): (m: seq<seq<real>>)
    reads a
    ensures Shape(m, a.Length0, a.Length1)
    ensures forall i, x :: 0 <= i < a.Length0 && 0 <= x < a.Length1 ==> m[i][x] == a[i, x]
  {
    seq(a.Length0, i requires 0 <= i < a.Length0 reads a => Row(a, i))
  }

  /** Two shaped matrices that agree entry by entry are equal. */
  lemma {:induction false} EqualByEntries(m1: seq<seq<real>>, m2: seq<seq<real>>, rows: nat, d: nat)
    requires Shape(m1, rows, d) && Shape(m2, rows, d)
    requires forall i, x :: 0 <= i < rows && 0 <= x < d ==> m1[i][x] == m2[i][x]
    ensures m1 == m2
  {
    forall i | 0 <= i < rows
      ensures m1[i] == m2[i]
    {
      assert forall x :: 0 <= x < d ==> m1[i][x] == m2[i][x];
    }
  }
}
