/** Sums of per-client weights. */
module Tally {
  // Every step of a machine replaces one client's local state, so one update law and a few
  // bounds are all the machines need.

  function Sum<T>(weight: T -> nat, items: seq<T>): nat {
    if items == [] then 0 else weight(items[0]) + Sum(weight, items[1..])
  }

  lemma {:induction false} SumUpdate<T>(weight: T -> nat, items: seq<T>, i: nat, x: T)
    requires i < |items|
    ensures Sum(weight, items[i := x]) + weight(items[i]) == Sum(weight, items) + weight(x)
  {
    if i == 0 {
      assert items[0 := x][1..] == items[1..];
    } else {
      assert items[i := x][1..] == items[1..][i - 1 := x];
      SumUpdate(weight, items[1..], i - 1, x);
    }
  }

  lemma {:induction false} SumCovers<T>(weight: T -> nat, items: seq<T>, i: nat)
    requires i < |items|
    ensures weight(items[i]) <= Sum(weight, items)
  {
    if i > 0 {
      SumCovers(weight, items[1..], i - 1);
    }
  }

  lemma {:induction false} SumCoversPair<T>(weight: T -> nat, items: seq<T>, i: nat, j: nat)
    requires i < j < |items|
    ensures weight(items[i]) + weight(items[j]) <= Sum(weight, items)
  {
    if i == 0 {
      SumCovers(weight, items[1..], j - 1);
    } else {
      SumCoversPair(weight, items[1..], i - 1, j - 1);
    }
  }

  lemma {:induction false} SumBounded<T>(weight: T -> nat, items: seq<T>)
    requires forall x :: weight(x) <= 1
    ensures Sum(weight, items) <= |items|
  {
    if items != [] {
      SumBounded(weight, items[1..]);
    }
  }

  lemma {:induction false} SumOfZeros<T>(weight: T -> nat, items: seq<T>)
    requires forall i :: 0 <= i < |items| ==> weight(items[i]) == 0
    ensures Sum(weight, items) == 0
  {
    if items != [] {
      SumOfZeros(weight, items[1..]);
    }
  }

  lemma {:induction false} SumDominated<T>(low: T -> nat, high: T -> nat, items: seq<T>)
    requires forall x :: low(x) <= high(x)
    ensures Sum(low, items) <= Sum(high, items)
  {
    if items != [] {
      SumDominated(low, high, items[1..]);
    }
  }

  lemma {:induction false} SumWitness<T>(weight: T -> nat, items: seq<T>) returns (i: nat)
    requires Sum(weight, items) > 0
    ensures i < |items| && weight(items[i]) > 0
  {
    if weight(items[0]) > 0 {
      i := 0;
    } else {
      i := SumWitness(weight, items[1..]);
      i := i + 1;
    }
  }

  /** The numbers below `n`. */
  function UpTo(n: nat): (r: set<nat>)
    ensures |r| == n
    ensures forall x :: x in r <==> 0 <= x < n
  {
    if n == 0 then {} else UpTo(n - 1) + {n - 1}
  }

  function Elements(items: seq<nat>): (r: set<nat>)
    ensures forall x :: x in r <==> x in items
  {
    if items == [] then {} else Elements(items[1..]) + {items[0]}
  }

  lemma {:induction false} DistinctCount(items: seq<nat>)
    requires forall i, j :: 0 <= i < j < |items| ==> items[i] != items[j]
    ensures |Elements(items)| == |items|
  {
    if items != [] {
      assert items[0] !in items[1..];
      DistinctCount(items[1..]);
    }
  }

  /** Numbers below `n` split into a sequence without repetition and a disjoint set. */
  lemma SplitCount(n: nat, items: seq<nat>, rest: set<nat>)
    requires forall i, j :: 0 <= i < j < |items| ==> items[i] != items[j]
    requires forall x :: x in UpTo(n) <==> x in items || x in rest
    requires forall x :: x in items ==> x !in rest
    ensures n == |items| + |rest|
  {
    DistinctCount(items);
    assert UpTo(n) == Elements(items) + rest;
  }
}
