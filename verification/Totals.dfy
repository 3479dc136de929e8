/** Sums of a per-element weight over a sequence. The thread pool counts threads
    and adds up their remaining work with these. */
module Totals {

  function Total<T>(xs: seq<T>, f: T -> nat): nat {
    if xs == [] then 0 else Total(xs[..|xs| - 1], f) + f(xs[|xs| - 1])
  }

  /** Replacing one element changes the sum by the difference of the two weights. */
  lemma {:induction false} TotalUpdate<T>(xs: seq<T>, i: nat, x: T, f: T -> nat)
    requires i < |xs|
    ensures Total(xs[i := x], f) + f(xs[i]) == Total(xs, f) + f(x)
  {
    var last := |xs| - 1;
    if i == last {
      assert xs[i := x][..last] == xs[..last];
    } else {
      assert xs[i := x][..last] == xs[..last][i := x];
      TotalUpdate(xs[..last], i, x, f);
    }
  }

  /** No element weighs more than the whole. */
  lemma {:induction false} TotalAtLeast<T>(xs: seq<T>, i: nat, f: T -> nat)
    requires i < |xs|
    ensures f(xs[i]) <= Total(xs, f)
  {
    if i < |xs| - 1 {
      TotalAtLeast(xs[..|xs| - 1], i, f);
    }
  }

  /** Weights of zero add up to zero. */
  lemma {:induction false} TotalNone<T>(xs: seq<T>, f: T -> nat)
    requires forall i :: 0 <= i < |xs| ==> f(xs[i]) == 0
    ensures Total(xs, f) == 0
  {
    if xs != [] {
      TotalNone(xs[..|xs| - 1], f);
    }
  }

  /** Elements of the same weights have the same sum. */
  lemma {:induction false} TotalSame<T>(xs: seq<T>, ys: seq<T>, f: T -> nat)
    requires |xs| == |ys| && forall i :: 0 <= i < |xs| ==> f(xs[i]) == f(ys[i])
    ensures Total(xs, f) == Total(ys, f)
  {
    if xs != [] {
      TotalSame(xs[..|xs| - 1], ys[..|ys| - 1], f);
    }
  }

  /** With weights 0 and 1 the sum is a count, and a zero term keeps it below the length. */
  lemma {:induction false} TotalBelowLength<T>(xs: seq<T>, f: T -> nat)
    requires forall k :: 0 <= k < |xs| ==> f(xs[k]) <= 1
    ensures Total(xs, f) <= |xs|
    ensures (exists k :: 0 <= k < |xs| && f(xs[k]) == 0) ==> Total(xs, f) < |xs|
  {
    if xs != [] {
      var init := xs[..|xs| - 1];
      TotalBelowLength(init, f);
      if k :| 0 <= k < |xs| && f(xs[k]) == 0 {
        assert k < |init| ==> init[k] == xs[k];
      }
    }
  }
}
