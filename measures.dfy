/** Sums and maxima of natural numbers, used to measure nested documents. */
module Measures {

  function Sum(xs: seq<nat>): nat {
    if xs == [] then 0 else xs[0] + Sum(xs[1..])
  }

  function Max(xs: seq<nat>): nat {
    if xs == [] then 0 else var m := Max(xs[1..]); if xs[0] < m then m else xs[0]
  }

  lemma {:induction false} SumAtLeastElement(xs: seq<nat>, i: int)
    requires 0 <= i < |xs|
    ensures xs[i] <= Sum(xs)
  {
    if i > 0 {
      SumAtLeastElement(xs[1..], i - 1);
    }
  }
}
