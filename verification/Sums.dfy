/** Sums of a weight over a sequence. */
module Sums {

  function Total<T>(weight: T -> nat, xs: seq<T>): nat
  {
    if xs == [] then 0 else weight(xs[0]) + Total(weight, xs[1..])
  }

  lemma {:induction false} TotalConcat<T>(weight: T -> nat, xs: seq<T>, ys: seq<T>)
    ensures Total(weight, xs + ys) == Total(weight, xs) + Total(weight, ys)
  {
    if xs == [] {
      assert xs + ys == ys;
    } else {
      assert (xs + ys)[1..] == xs[1..] + ys;
      TotalConcat(weight, xs[1..], ys);
    }
  }

  lemma {:induction false} TotalUpdate<T>(weight: T -> nat, xs: seq<T>, i: nat, x: T)
    requires i < |xs|
    ensures Total(weight, xs[i := x]) + weight(xs[i]) == Total(weight, xs) + weight(x)
  {
    if i > 0 {
      assert xs[i := x][1..] == xs[1..][i - 1 := x];
      TotalUpdate(weight, xs[1..], i - 1, x);
    }
  }

  lemma {:induction false} TotalOfEqual<T>(weight: T -> nat, xs: seq<T>, w: nat)
    requires forall i :: 0 <= i < |xs| ==> weight(xs[i]) == w
    ensures Total(weight, xs) == w * |xs|
  {
    if xs != [] { TotalOfEqual(weight, xs[1..], w); }
  }

  /** Different numbers below `n` are at most `n`. */
  lemma {:induction false} AtMost(xs: seq<nat>, n: nat)
    requires forall i :: 0 <= i < |xs| ==> xs[i] < n
    requires forall i, j :: 0 <= i < j < |xs| ==> xs[i] != xs[j]
    ensures |xs| <= n
  {
    if xs != [] {
      assert xs[0] < n;
      if i :| 0 <= i < |xs| && xs[i] == n - 1 {
        var rest := xs[..i] + xs[i + 1..];
        assert forall k :: 0 <= k < |rest| ==> rest[k] == if k < i then xs[k] else xs[k + 1];
        AtMost(rest, n - 1);
      } else {
        AtMost(xs, n - 1);
      }
    }
  }
}
