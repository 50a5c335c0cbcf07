/** What holds over the steps of a run. */
module Runs {

  function Sum(counts: seq<nat>): nat {
    if counts == [] then 0 else Sum(counts[..|counts| - 1]) + counts[|counts| - 1]
  }

  lemma SumOfNone()
    ensures Sum([]) == 0
  {
  }

  lemma SumOne(counts: seq<nat>, n: nat)
    ensures Sum(counts + [n]) == Sum(counts) + n
  {
    assert (counts + [n])[..|counts|] == counts;
  }

  /** Only a sum of zeros is zero. */
  lemma {:induction false} SumIsZero(counts: seq<nat>)
    ensures Sum(counts) == 0 <==> forall i | 0 <= i < |counts| :: counts[i] == 0
  {
    if counts != [] {
      SumIsZero(counts[..|counts| - 1]);
    }
  }

  /** A property that each step keeps exactly when the step is no break: it holds
      at each of the first moments exactly when it held at the start and none of
      the steps between is a break. */
  lemma {:induction false} HoldsUntilBroken(holds: seq<bool>, breaks: seq<bool>, n: nat)
    requires |holds| == |breaks| + 1 && n <= |breaks|
    requires forall i | 0 <= i < |breaks| && holds[i] :: holds[i + 1] <==> !breaks[i]
    ensures (forall i | 0 <= i <= n :: holds[i]) <==> holds[0] && forall i | 0 <= i < n :: !breaks[i]
  {
    if n > 0 {
      HoldsUntilBroken(holds, breaks, n - 1);
      assert holds[n - 1] ==> (holds[n - 1 + 1] <==> !breaks[n - 1]);
    }
  }
}
