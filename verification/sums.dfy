/**
 * Finite sums of reals: the accumulation behind `np.mean` and behind the running error total
 * of the parameter fit.
 */
module Sums {
  /** The sum of a list, first element first. */
  function Sum(xs: seq<real>): (r: real)
    ensures (forall i :: 0 <= i < |xs| ==> xs[i] >= 0.0) ==> r >= 0.0
    ensures (forall i :: 0 <= i < |xs| ==> xs[i] == 0.0) ==> r == 0.0
  {
    if xs == [] then 0.0 else xs[0] + Sum(xs[1..])
  }

  /** Lists that agree entry by entry have the same sum. */
  lemma {:induction false} SumPointwise(xs: seq<real>, ys: seq<real>)
    requires |xs| == |ys|
    requires forall i :: 0 <= i < |xs| ==> xs[i] == ys[i]
    ensures Sum(xs) == Sum(ys)
  {
    if xs != [] {
      SumPointwise(xs[1..], ys[1..]);
    }
  }
}
