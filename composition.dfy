/** What `combine_multipliers` computes: month by month the product of all
    the lists it is given, independent of their order. */
module Composition {
  import opened Series
  import opened Inputs

  /** Month m of every list, multiplied together (1 for no lists). */
  function ProductAt(multipliers: seq<seq<real>>, m: nat): real
    requires forall k :: 0 <= k < |multipliers| ==> m < |multipliers[k]|
  {
    if multipliers == [] then 1.0 else multipliers[0][m] * ProductAt(multipliers[1..], m)
  }

  lemma {:induction false} ProductAtSnoc(multipliers: seq<seq<real>>, last: seq<real>, m: nat)
    requires forall k :: 0 <= k < |multipliers| ==> m < |multipliers[k]|
    requires m < |last|
    ensures ProductAt(multipliers + [last], m) == ProductAt(multipliers, m) * last[m]
  {
    var s := multipliers + [last];
    if multipliers == [] {
      assert s == [last];
      assert s[1..] == [];
    } else {
      assert s[0] == multipliers[0];
      assert s[1..] == multipliers[1..] + [last];
      ProductAtSnoc(multipliers[1..], last, m);
    }
  }

  /** Month m of the combined multiplier is the product of month m of every
      input list. */
  lemma {:induction false} CombineAt(multipliers: seq<seq<real>>, m: nat)
    requires m < |Combine(multipliers)|
    ensures forall k :: 0 <= k < |multipliers| ==> m < |multipliers[k]|
    ensures Combine(multipliers)[m] == ProductAt(multipliers, m)
    decreases |multipliers|
  {
    CombineLength(multipliers);
    if multipliers != [] {
      var n := |multipliers|;
      var init, last := multipliers[..n - 1], multipliers[n - 1];
      assert Combine(multipliers) == ZipMul(Combine(init), last);
      assert Combine(multipliers)[m] == Combine(init)[m] * last[m];
      CombineAt(init, m);
      assert multipliers == init + [last];
      ProductAtSnoc(init, last, m);
    }
  }

  /** With twelve-month lists only, the combined multiplier has twelve months
      and month m is the product of month m of every list. */
  lemma CombineElementwise(multipliers: seq<seq<real>>)
    requires forall k :: 0 <= k < |multipliers| ==> |multipliers[k]| == NPeriods
    ensures |Combine(multipliers)| == NPeriods
    ensures forall m :: 0 <= m < NPeriods ==> Combine(multipliers)[m] == ProductAt(multipliers, m)
  {
    CombineLength(multipliers);
    forall m | 0 <= m < NPeriods
      ensures Combine(multipliers)[m] == ProductAt(multipliers, m)
    {
      CombineAt(multipliers, m);
    }
  }

  /** Zipping in list i last gives the same result as zipping it in where it
      stands. */
  lemma {:induction false} CombineRemove(multipliers: seq<seq<real>>, i: nat)
    requires i < |multipliers|
    ensures Combine(multipliers) == ZipMul(Combine(multipliers[..i] + multipliers[i + 1..]), multipliers[i])
    decreases |multipliers|
  {
    var n := |multipliers|;
    var init, last := multipliers[..n - 1], multipliers[n - 1];
    assert Combine(multipliers) == ZipMul(Combine(init), last);
    if i == n - 1 {
      assert multipliers[..i] + multipliers[i + 1..] == init;
    } else {
      var rest := init[..i] + init[i + 1..];
      CombineRemove(init, i);
      assert Combine(init) == ZipMul(Combine(rest), multipliers[i]);
      assert multipliers[..i] + multipliers[i + 1..] == rest + [last];
      assert (rest + [last])[..|rest|] == rest;
      assert Combine(rest + [last]) == ZipMul(Combine(rest), last);
      ZipMulSwapRight(Combine(rest), multipliers[i], last);
    }
  }

  /** Permuting the lists does not change the combined multiplier. */
  lemma {:induction false} CombinePermutation(a: seq<seq<real>>, b: seq<seq<real>>)
    requires multiset(a) == multiset(b)
    ensures Combine(a) == Combine(b)
    decreases |a|
  {
    if a == [] {
      assert |b| == |multiset(b)| == 0;
    } else {
      var n := |a|;
      var last := a[n - 1];
      assert a == a[..n - 1] + [last];
      assert last in multiset(b);
      var i :| 0 <= i < |b| && b[i] == last;
      var rest := b[..i] + b[i + 1..];
      assert b == b[..i] + [last] + b[i + 1..];
      assert multiset(b) == multiset(rest) + multiset{last};
      assert multiset(a) == multiset(a[..n - 1]) + multiset{last};
      calc {
        multiset(a[..n - 1]);
        multiset(a) - multiset{last};
        multiset(b) - multiset{last};
        multiset(rest);
      }
      CombinePermutation(a[..n - 1], rest);
      CombineRemove(b, i);
    }
  }
}
