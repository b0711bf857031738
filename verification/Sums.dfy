/** Sums of natural numbers. */
module Sums {

  function Sum(xs: seq<nat>): nat {
    if xs == [] then 0 else Sum(xs[..|xs| - 1]) + xs[|xs| - 1]
  }

  lemma {:induction false} SumUpdate(xs: seq<nat>, i: nat, y: nat)
    requires i < |xs|
    ensures Sum(xs[i := y]) == Sum(xs) - xs[i] + y
  {
    var last := |xs| - 1;
    if i == last {
      assert xs[i := y][..last] == xs[..last];
    } else {
      assert xs[i := y][..last] == xs[..last][i := y];
      SumUpdate(xs[..last], i, y);
    }
  }

  ghost predicate AtMost(xs: seq<nat>, ys: seq<nat>) {
    |xs| == |ys| && forall i :: 0 <= i < |xs| ==> xs[i] <= ys[i]
  }

  lemma {:induction false} SumAtMost(xs: seq<nat>, ys: seq<nat>)
    requires AtMost(xs, ys)
    ensures Sum(xs) <= Sum(ys)
  {
    if xs != [] {
      SumAtMost(xs[..|xs| - 1], ys[..|ys| - 1]);
    }
  }

  lemma SumLess(xs: seq<nat>, ys: seq<nat>, i: nat)
    requires AtMost(xs, ys) && i < |xs| && xs[i] < ys[i]
    ensures Sum(xs) < Sum(ys)
  {
    SumUpdate(ys, i, xs[i]);
    SumAtMost(xs, ys[i := xs[i]]);
  }
}
