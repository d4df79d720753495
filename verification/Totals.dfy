/**
 Totals over a sequence, such as the threads of a pool or the items of a queue, to which each
 element contributes a number. A step changes one element, or adds or removes one, so what a
 step does to a total is one lemma.
 */
module Totals {

  function Sum<A>(weight: A -> nat, pool: seq<A>): nat {
    if pool == [] then 0 else weight(pool[0]) + Sum(weight, pool[1..])
  }

  lemma {:induction false} SumUpdate<A>(weight: A -> nat, pool: seq<A>, i: nat, x: A)
    requires i < |pool|
    ensures Sum(weight, pool[i := x]) + weight(pool[i]) == Sum(weight, pool) + weight(x)
  {
    if i == 0 {
      assert pool[i := x][1..] == pool[1..];
    } else {
      assert pool[i := x][1..] == pool[1..][i - 1 := x];
      SumUpdate(weight, pool[1..], i - 1, x);
    }
  }

  lemma {:induction false} SumPointwise<A>(weight: A -> nat, a: seq<A>, b: seq<A>)
    requires |a| == |b| && forall i :: 0 <= i < |a| ==> weight(a[i]) == weight(b[i])
    ensures Sum(weight, a) == Sum(weight, b)
  {
    if a != [] {
      assert weight(a[0]) == weight(b[0]);
      SumPointwise(weight, a[1..], b[1..]);
    }
  }

  lemma {:induction false} SumBounded<A>(weight: A -> nat, pool: seq<A>, most: nat)
    requires forall i :: 0 <= i < |pool| ==> weight(pool[i]) <= most
    ensures Sum(weight, pool) <= most * |pool|
  {
    if pool != [] {
      SumBounded(weight, pool[1..], most);
      assert most * |pool| == most + most * |pool[1..]|;
    }
  }

  lemma {:induction false} SumConcat<A>(weight: A -> nat, a: seq<A>, b: seq<A>)
    ensures Sum(weight, a + b) == Sum(weight, a) + Sum(weight, b)
  {
    if a == [] {
      assert a + b == b;
    } else {
      assert (a + b)[1..] == a[1..] + b;
      SumConcat(weight, a[1..], b);
    }
  }

  lemma SumAppend<A>(weight: A -> nat, pool: seq<A>, x: A)
    ensures Sum(weight, pool + [x]) == Sum(weight, pool) + weight(x)
  {
    SumConcat(weight, pool, [x]);
  }
}
