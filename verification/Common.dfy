/** Small shared vocabulary: optional values and sums over sequences. */
module Common {

  datatype Option<+T> = None | Some(value: T)

  function Min(a: nat, b: nat): nat {
    if a < b then a else b
  }

  function Monus(a: nat, b: nat): nat {
    if a < b then 0 else a - b
  }

  /** The sum of a weight over all elements of a sequence. */
  function Sum<T>(weight: T -> nat, xs: seq<T>): nat {
    if |xs| == 0 then 0 else Sum(weight, xs[..|xs| - 1]) + weight(xs[|xs| - 1])
  }

  lemma SumAppend<T>(weight: T -> nat, xs: seq<T>, x: T)
    ensures Sum(weight, xs + [x]) == Sum(weight, xs) + weight(x)
  {
    assert (xs + [x])[..|xs|] == xs;
  }

  /** Replacing one element changes the sum by the difference of the two weights. */
  lemma {:induction false} SumUpdate<T>(weight: T -> nat, xs: seq<T>, i: nat, x: T)
    requires i < |xs|
    ensures Sum(weight, xs[i := x]) + weight(xs[i]) == Sum(weight, xs) + weight(x)
    decreases |xs|
  {
    var last := |xs| - 1;
    if i < last {
      assert xs[i := x][..last] == xs[..last][i := x];
      SumUpdate(weight, xs[..last], i, x);
    } else {
      assert xs[i := x][..last] == xs[..last];
    }
  }

  /** A single element never weighs more than the whole sequence. */
  lemma {:induction false} SumAtLeast<T>(weight: T -> nat, xs: seq<T>, i: nat)
    requires i < |xs|
    ensures weight(xs[i]) <= Sum(weight, xs)
    decreases |xs|
  {
    if i < |xs| - 1 {
      SumAtLeast(weight, xs[..|xs| - 1], i);
    }
  }

  /** If no element weighs more than `bound`, the sum is at most `bound` per element. */
  lemma {:induction false} SumAtMost<T>(weight: T -> nat, xs: seq<T>, bound: nat)
    requires forall i :: 0 <= i < |xs| ==> weight(xs[i]) <= bound
    ensures Sum(weight, xs) <= |xs| * bound
    decreases |xs|
  {
    if |xs| > 0 {
      var init := xs[..|xs| - 1];
      forall i | 0 <= i < |init| ensures weight(init[i]) <= bound { assert init[i] == xs[i]; }
      SumAtMost(weight, init, bound);
      assert (|xs| - 1) * bound + bound == |xs| * bound;
    }
  }

  lemma {:induction false} SumZero<T>(weight: T -> nat, xs: seq<T>)
    requires forall i :: 0 <= i < |xs| ==> weight(xs[i]) == 0
    ensures Sum(weight, xs) == 0
  {
    SumAtMost(weight, xs, 0);
  }

  /** ... and one element that weighs nothing leaves room for a whole bound. */
  lemma {:induction false} SumLeavesRoom<T>(weight: T -> nat, xs: seq<T>, bound: nat, i: nat)
    requires i < |xs| && weight(xs[i]) == 0 && forall x | x in xs :: weight(x) <= bound
    ensures Sum(weight, xs) + bound <= |xs| * bound
    decreases |xs|
  {
    var n := |xs| - 1;
    if i == n {
      SumAtMost(weight, xs[..n], bound);
    } else {
      SumLeavesRoom(weight, xs[..n], bound, i);
    }
  }

  /** Weights of one and nothing count the chosen elements. */
  lemma {:induction false} SumCounts<T>(weight: T -> nat, xs: seq<T>, chosen: set<nat>)
    requires forall i: nat :: i in chosen <==> i < |xs| && weight(xs[i]) == 1
    requires forall x :: weight(x) <= 1
    ensures Sum(weight, xs) == |chosen|
    decreases |xs|
  {
    if |xs| == 0 {
      assert chosen == {};
    } else {
      var last := |xs| - 1;
      SumCounts(weight, xs[..last], chosen - {last});
      assert last in chosen <==> weight(xs[last]) == 1;
    }
  }
}
