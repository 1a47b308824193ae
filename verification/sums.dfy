/** Options, and totals over columns of integers: one entry per table row. */
module Common {

  datatype Option<+T> = None | Some(value: T)

  function Max(a: int, b: int): int { if a < b then b else a }

  function Min(a: int, b: int): int { if a < b then a else b }

  ghost predicate NoDuplicates<T>(xs: seq<T>) {
    forall i, j :: 0 <= i < j < |xs| ==> xs[i] != xs[j]
  }

  /** A duplicate-free list of numbers below n has at most n entries. */
  lemma {:induction false} NoDuplicatesBound(xs: seq<nat>, n: nat)
    requires NoDuplicates(xs)
    requires forall i :: 0 <= i < |xs| ==> xs[i] < n
    ensures |xs| <= n
  {
    BelowMembers(n);
    DistinctFit(xs, Below(n));
  }

  function Below(n: nat): set<nat> {
    if n == 0 then {} else Below(n - 1) + {n - 1}
  }

  lemma {:induction false} BelowMembers(n: nat)
    ensures |Below(n)| == n
    ensures forall i: nat :: i in Below(n) <==> i < n
  {
    if n > 0 {
      BelowMembers(n - 1);
    }
  }

  lemma {:induction false} DistinctFit(xs: seq<nat>, s: set<nat>)
    requires NoDuplicates(xs)
    requires forall i :: 0 <= i < |xs| ==> xs[i] in s
    ensures |xs| <= |s|
    decreases |xs|
  {
    if xs != [] {
      var last := xs[|xs| - 1];
      DistinctFit(xs[..|xs| - 1], s - {last});
      assert |s - {last}| == |s| - 1;
    }
  }
}

module Sums {

  function Sum(xs: seq<int>): int {
    if xs == [] then 0 else Sum(xs[..|xs| - 1]) + xs[|xs| - 1]
  }

  lemma SumAppend(xs: seq<int>, x: int)
    ensures Sum(xs + [x]) == Sum(xs) + x
  {
    assert (xs + [x])[..|xs|] == xs;
  }

  /** Rows read one by one: the total of one row more. */
  lemma SumPrefixStep(xs: seq<int>, k: nat)
    requires k < |xs|
    ensures Sum(xs[..k + 1]) == Sum(xs[..k]) + xs[k]
  {
    assert xs[..k + 1][..k] == xs[..k];
  }

  lemma {:induction false} SumMonotone(xs: seq<int>, ys: seq<int>)
    requires |xs| == |ys| && forall i :: 0 <= i < |xs| ==> xs[i] <= ys[i]
    ensures Sum(xs) <= Sum(ys)
    decreases |xs|
  {
    if xs != [] {
      SumMonotone(xs[..|xs| - 1], ys[..|ys| - 1]);
    }
  }

  /** Columns that differ in row k only differ in total by that row. */
  lemma {:induction false} SumPoint(xs: seq<int>, ys: seq<int>, k: nat)
    requires k < |xs| == |ys|
    requires forall i :: 0 <= i < |xs| && i != k ==> xs[i] == ys[i]
    ensures Sum(ys) == Sum(xs) - xs[k] + ys[k]
    decreases |xs|
  {
    var n := |xs| - 1;
    if k < n {
      SumPoint(xs[..n], ys[..n], k);
    } else {
      assert xs[..n] == ys[..n];
    }
  }

  lemma {:induction false} SumNonNegative(xs: seq<int>)
    requires forall i :: 0 <= i < |xs| ==> xs[i] >= 0
    ensures Sum(xs) >= 0
    decreases |xs|
  {
    if xs != [] {
      SumNonNegative(xs[..|xs| - 1]);
    }
  }

  /** A total of non-negative rows covers each of its rows. */
  lemma SumCovers(xs: seq<int>, k: nat)
    requires k < |xs| && forall i :: 0 <= i < |xs| ==> xs[i] >= 0
    ensures Sum(xs) >= xs[k]
  {
    SumPoint(xs, xs[k := 0], k);
    SumNonNegative(xs[k := 0]);
  }

  /** A total of non-negative rows covers the total of any first k + 1 of them. */
  lemma {:induction false} SumPrefixBelow(xs: seq<int>, k: nat)
    requires k <= |xs| && forall i :: 0 <= i < |xs| ==> xs[i] >= 0
    ensures Sum(xs[..k]) <= Sum(xs)
    decreases |xs| - k
  {
    if k == |xs| {
      assert xs[..k] == xs;
    } else {
      SumPrefixStep(xs, k);
      SumPrefixBelow(xs, k + 1);
    }
  }

  lemma {:induction false} SumPlus(xs: seq<int>, ys: seq<int>, zs: seq<int>)
    requires |xs| == |ys| == |zs|
    requires forall i :: 0 <= i < |xs| ==> zs[i] == xs[i] + ys[i]
    ensures Sum(zs) == Sum(xs) + Sum(ys)
    decreases |xs|
  {
    if xs != [] {
      var n := |xs| - 1;
      SumPlus(xs[..n], ys[..n], zs[..n]);
    }
  }
}
