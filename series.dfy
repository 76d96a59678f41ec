/** Sequence helpers shared by the impact engine: the `[x] * n` repetition,
    the element-wise product that `zip` produces, and the column sum. */
module Series {

  datatype Option<T> = None | Some(value: T)

  datatype Result<T, E> = Ok(value: T) | Err(error: E)

  /** `[x] * n`: a list holding n copies of x. */
  function Repeat(x: real, n: nat): (r: seq<real>)
    ensures |r| == n
    ensures forall i :: 0 <= i < n ==> r[i] == x
  {
    seq(n, _ => x)
  }

  /** `[a * b for a, b in zip(xs, ys)]`: zip stops at the shorter list. */
  function ZipMul(xs: seq<real>, ys: seq<real>): (r: seq<real>)
    ensures |r| <= |xs| && |r| <= |ys|
    ensures |r| == |xs| || |r| == |ys|
    ensures forall i :: 0 <= i < |r| ==> r[i] == xs[i] * ys[i]
  {
    var n := if |xs| <= |ys| then |xs| else |ys|;
    seq(n, i requires 0 <= i < n => xs[i] * ys[i])
  }

  /** The sum of a numeric column (pandas `Series.sum()`, 0 for an empty column). */
  function Sum(s: seq<real>): real
  {
    if s == [] then 0.0 else s[0] + Sum(s[1..])
  }

  /** Multiplying by b and then by c is multiplying by c and then by b. */
  lemma ZipMulSwapRight(a: seq<real>, b: seq<real>, c: seq<real>)
    ensures ZipMul(ZipMul(a, b), c) == ZipMul(ZipMul(a, c), b)
  {
    var l, r := ZipMul(ZipMul(a, b), c), ZipMul(ZipMul(a, c), b);
    assert |l| == |r|;
    forall i | 0 <= i < |l| ensures l[i] == r[i] {
      assert l[i] == (a[i] * b[i]) * c[i];
      assert r[i] == (a[i] * c[i]) * b[i];
    }
  }

  /** Two columns that agree element by element have the same sum. */
  lemma {:induction false} SumPointwise(s: seq<real>, t: seq<real>)
    requires |s| == |t|
    requires forall i :: 0 <= i < |s| ==> s[i] == t[i]
    ensures Sum(s) == Sum(t)
  {
    if s != [] {
      SumPointwise(s[1..], t[1..]);
    }
  }
}
