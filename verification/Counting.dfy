// Adding up a weight over a sequence, as counters and semaphores do.
module Counting {
  function Sum<T>(xs: seq<T>, weight: T -> nat): nat {
    if xs == [] then 0 else weight(xs[0]) + Sum(xs[1..], weight)
  }

  lemma {:induction false} SumUpdate<T>(xs: seq<T>, weight: T -> nat, i: nat, x: T)
    requires i < |xs|
    ensures Sum(xs[i := x], weight) + weight(xs[i]) == Sum(xs, weight) + weight(x)
  {
    if i == 0 {
      assert xs[0 := x][1..] == xs[1..];
    } else {
      SumUpdate(xs[1..], weight, i - 1, x);
      assert xs[i := x][1..] == xs[1..][i - 1 := x];
    }
  }

  // One element moves on, for the three counters of a pool: slots, wait group, steps left.
  lemma Moves<T>(xs: seq<T>, slots: T -> nat, running: T -> nat, left: T -> nat, i: nat, x: T)
    requires i < |xs|
    ensures Sum(xs[i := x], slots) + slots(xs[i]) == Sum(xs, slots) + slots(x)
    ensures Sum(xs[i := x], running) + running(xs[i]) == Sum(xs, running) + running(x)
    ensures Sum(xs[i := x], left) + left(xs[i]) == Sum(xs, left) + left(x)
  {
    SumUpdate(xs, slots, i, x);
    SumUpdate(xs, running, i, x);
    SumUpdate(xs, left, i, x);
  }

  lemma {:induction false} SumIsZero<T>(xs: seq<T>, weight: T -> nat)
    ensures Sum(xs, weight) == 0 <==> forall i :: 0 <= i < |xs| ==> weight(xs[i]) == 0
  {
    if xs != [] {
      SumIsZero(xs[1..], weight);
      assert forall i :: 0 < i < |xs| ==> xs[i] == xs[1..][i - 1];
      assert forall i :: 0 <= i < |xs| - 1 ==> xs[1..][i] == xs[i + 1];
    }
  }

  lemma {:induction false} SumOfConstant<T>(xs: seq<T>, weight: T -> nat, each: nat)
    requires forall i :: 0 <= i < |xs| ==> weight(xs[i]) == each
    ensures Sum(xs, weight) == each * |xs|
  {
    if xs != [] {
      SumOfConstant(xs[1..], weight, each);
    }
  }
}
