/** Sums of natural numbers. */
module Sums {

  function Sum(values: seq<nat>): nat { if values == [] then 0 else values[0] + Sum(values[1..]) }

  lemma {:induction false} SumSnoc(values: seq<nat>, v: nat)
    ensures Sum(values + [v]) == Sum(values) + v
  {
    if values == [] {
      assert values + [v] == [v];
      assert |[v][1..]| == 0;
    } else {
      SumSnoc(values[1..], v);
      assert (values + [v])[1..] == values[1..] + [v];
    }
  }

  lemma {:induction false} SumMonotone(xs: seq<nat>, ys: seq<nat>)
    requires |xs| == |ys| && forall i | 0 <= i < |xs| :: xs[i] <= ys[i]
    ensures Sum(xs) <= Sum(ys)
  {
    if xs != [] {
      SumMonotone(xs[1..], ys[1..]);
    }
  }

  lemma {:induction false} SumPrefix(xs: seq<nat>, ys: seq<nat>)
    ensures Sum(xs) <= Sum(xs + ys)
  {
    if xs != [] {
      SumPrefix(xs[1..], ys);
      assert (xs + ys)[1..] == xs[1..] + ys;
    }
  }
}
