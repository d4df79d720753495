/**
 Runs of a step-by-step system, shared by every state machine of this project.

 A machine is a function `step` from a state and a label to the next state, or `None` where
 the label is not enabled. A run is a sequence of labels, each enabled where it stands; since
 any thread may contribute the next label, the runs of a machine are all its interleavings.
 */
module Runs {

  datatype Option<+T> = None | Some(value: T)

  /** The state the labels lead to, or None if one of them is not enabled where it stands. */
  function Exec<S, L>(step: (S, L) -> Option<S>, s: S, labels: seq<L>): Option<S> {
    if labels == [] then Some(s)
    else match step(s, labels[0])
      case None => None
      case Some(next) => Exec(step, next, labels[1..])
  }

  /** One step, or none. */
  function Maybe<S, L>(step: (S, L) -> Option<S>, s: S, l: Option<L>): Option<S> {
    match l
    case None => Some(s)
    case Some(taken) => step(s, taken)
  }

  /** How many of the labels satisfy `p`. */
  function Count<L>(p: L -> bool, labels: seq<L>): nat {
    if labels == [] then 0
    else (if p(labels[0]) then 1 else 0) + Count(p, labels[1..])
  }

  /** A run may be cut anywhere: the two parts are runs, the second from where the first ends. */
  lemma {:induction false} ExecConcat<S, L>(step: (S, L) -> Option<S>, s: S, a: seq<L>, b: seq<L>)
    ensures Exec(step, s, a + b) ==
            match Exec(step, s, a) { case None => None case Some(mid) => Exec(step, mid, b) }
  {
    if a == [] {
      assert a + b == b;
    } else {
      assert (a + b)[1..] == a[1..] + b;
      match step(s, a[0])
      case None =>
      case Some(next) => ExecConcat(step, next, a[1..], b);
    }
  }

  /** What comes before, at and after one label of a run. */
  lemma SplitAt<S, L>(step: (S, L) -> Option<S>, s: S, labels: seq<L>, i: nat)
    requires i < |labels| && Exec(step, s, labels).Some?
    ensures Exec(step, s, labels[..i]).Some?
    ensures var at := Exec(step, s, labels[..i]).value;
            && step(at, labels[i]).Some?
            && Exec(step, step(at, labels[i]).value, labels[i + 1..]) == Exec(step, s, labels)
  {
    assert labels == labels[..i] + labels[i..];
    ExecConcat(step, s, labels[..i], labels[i..]);
    assert labels[i..][1..] == labels[i + 1..];
  }

  /** The labels that satisfy `p`, in order. */
  function Filter<L>(p: L -> bool, labels: seq<L>): seq<L> {
    if labels == [] then []
    else (if p(labels[0]) then [labels[0]] else []) + Filter(p, labels[1..])
  }

  lemma {:induction false} FilterConcat<L>(p: L -> bool, a: seq<L>, b: seq<L>)
    ensures Filter(p, a + b) == Filter(p, a) + Filter(p, b)
  {
    if a == [] {
      assert a + b == b;
    } else {
      assert (a + b)[1..] == a[1..] + b;
      FilterConcat(p, a[1..], b);
    }
  }

  lemma FilterOne<L>(p: L -> bool, labels: seq<L>, l: L)
    ensures Filter(p, labels + [l]) == Filter(p, labels) + if p(l) then [l] else []
  {
    FilterConcat(p, labels, [l]);
    assert [l][1..] == [];
  }

  lemma {:induction false} FilterNone<L>(p: L -> bool, labels: seq<L>)
    requires forall k :: 0 <= k < |labels| ==> !p(labels[k])
    ensures Filter(p, labels) == []
  {
    if labels != [] {
      assert !p(labels[0]);
      forall k | 0 <= k < |labels[1..]| ensures !p(labels[1..][k]) {
        assert labels[1..][k] == labels[k + 1];
      }
      FilterNone(p, labels[1..]);
    }
  }

  /** What is appended without satisfying `p` adds nothing. */
  lemma FilterSince<L>(p: L -> bool, past: seq<L>, labels: seq<L>)
    requires past <= labels && forall k :: 0 <= k < |labels[|past|..]| ==> !p(labels[|past|..][k])
    ensures Filter(p, labels) == Filter(p, past)
  {
    assert labels == past + labels[|past|..];
    FilterConcat(p, past, labels[|past|..]);
    FilterNone(p, labels[|past|..]);
  }

  /** One more enabled step extends a run. */
  lemma Then<S, L>(step: (S, L) -> Option<S>, start: S, labels: seq<L>, s: S, l: L)
    requires Exec(step, start, labels) == Some(s)
    ensures Exec(step, start, labels + [l]) == step(s, l)
  {
    ExecConcat(step, start, labels, [l]);
  }

  lemma Take<S, L>(step: (S, L) -> Option<S>, start: S, labels: seq<L>, s: S, l: L) returns (longer: seq<L>, r: S)
    requires Exec(step, start, labels) == Some(s) && step(s, l).Some?
    ensures Exec(step, start, longer) == Some(r) && r == step(s, l).value
  {
    longer, r := labels + [l], step(s, l).value;
    Then(step, start, labels, s, l);
  }

  /** What a longer run does beyond a shorter one is a run from where that one ends. */
  lemma Since<S, L>(step: (S, L) -> Option<S>, start: S, before: seq<L>, s: S, labels: seq<L>)
    requires before <= labels && Exec(step, start, before) == Some(s)
    ensures Exec(step, s, labels[|before|..]) == Exec(step, start, labels)
  {
    assert labels == before + labels[|before|..];
    ExecConcat(step, start, before, labels[|before|..]);
  }

  /** What every step keeps holds at the end of every run. */
  lemma {:induction false} Invariant<S(!new), L(!new)>(step: (S, L) -> Option<S>, inv: S -> bool, s: S, labels: seq<L>)
    requires forall s: S, l: L :: inv(s) && step(s, l).Some? ==> inv(step(s, l).value)
    requires inv(s) && Exec(step, s, labels).Some?
    ensures inv(Exec(step, s, labels).value)
    decreases |labels|
  {
    if labels != [] {
      Invariant(step, inv, step(s, labels[0]).value, labels[1..]);
    }
  }

  /**
   A rank that no step raises, and every label satisfying `cost` lowers, bounds the number of
   such labels in a run.
   */
  lemma {:induction false} Potential<S(!new), L(!new)>(
    step: (S, L) -> Option<S>, inv: S -> bool, rank: S -> nat, cost: L -> bool, s: S, labels: seq<L>)
    requires forall s: S, l: L :: inv(s) && step(s, l).Some? ==>
               inv(step(s, l).value) && rank(step(s, l).value) + (if cost(l) then 1 else 0) <= rank(s)
    requires inv(s) && Exec(step, s, labels).Some?
    ensures inv(Exec(step, s, labels).value)
    ensures Count(cost, labels) + rank(Exec(step, s, labels).value) <= rank(s)
    decreases |labels|
  {
    if labels != [] {
      Potential(step, inv, rank, cost, step(s, labels[0]).value, labels[1..]);
    }
  }

  function Listed<M>(m: Option<M>): seq<M> {
    match m
    case None => []
    case Some(x) => [x]
  }

  lemma {:induction false} CountConcat<L>(p: L -> bool, a: seq<L>, b: seq<L>)
    ensures Count(p, a + b) == Count(p, a) + Count(p, b)
  {
    if a == [] {
      assert a + b == b;
    } else {
      assert (a + b)[1..] == a[1..] + b;
      CountConcat(p, a[1..], b);
    }
  }

  lemma {:induction false} CountNone<L>(p: L -> bool, labels: seq<L>)
    ensures Count(p, labels) == 0 <==> forall k :: 0 <= k < |labels| ==> !p(labels[k])
  {
    if labels != [] {
      var rest := labels[1..];
      CountNone(p, rest);
      forall k: nat | k < |rest|
        ensures p(rest[k]) == p(labels[k + 1])
      {
        assert rest[k] == labels[k + 1];
      }
      if forall k :: 0 <= k < |labels| ==> !p(labels[k]) {
        assert !p(labels[0]);
      } else {
        var k :| 0 <= k < |labels| && p(labels[k]);
        assert k == 0 || p(rest[k - 1]);
      }
    }
  }

  /** Some run from here contains a label satisfying `cost`. */
  ghost predicate CanStill<S, L(!new)>(step: (S, L) -> Option<S>, cost: L -> bool, s: S) {
    exists labels: seq<L> :: Exec(step, s, labels).Some? && Count(cost, labels) > 0
  }

  lemma StillAfter<S, L(!new)>(step: (S, L) -> Option<S>, cost: L -> bool, s: S, l: L)
    requires step(s, l).Some? && (cost(l) || CanStill(step, cost, step(s, l).value))
    ensures CanStill(step, cost, s)
  {
    if cost(l) {
      assert [l][1..] == [];
      assert Exec(step, s, [l]) == step(s, l) && Count(cost, [l]) == 1;
    } else {
      var labels: seq<L> :| Exec(step, step(s, l).value, labels).Some? && Count(cost, labels) > 0;
      ExecConcat(step, s, [l], labels);
      CountConcat(cost, [l], labels);
      assert [l][1..] == [];
      assert Exec(step, s, [l] + labels).Some? && Count(cost, [l] + labels) > 0;
    }
  }

  /** The steps that the labels of a run are in one part of the machine. */
  function Project<S, L, M>(step: (S, L) -> Option<S>, move: (S, L) -> Option<M>, s: S, labels: seq<L>): seq<M> {
    if labels == [] || step(s, labels[0]).None? then []
    else Listed(move(s, labels[0])) + Project(step, move, step(s, labels[0]).value, labels[1..])
  }

  lemma ProjectFirst<S, L, M>(
    step: (S, L) -> Option<S>, move: (S, L) -> Option<M>, s: S, labels: seq<L>, before: seq<M>)
    requires labels != [] && step(s, labels[0]).Some?
    ensures before + Project(step, move, s, labels)
            == (before + Listed(move(s, labels[0]))) + Project(step, move, step(s, labels[0]).value, labels[1..])
  {
  }

  /** If each step is at most one step of a part, each run is a run of that part. */
  lemma {:induction false} Projection<S(!new), L(!new), C, M>(
    step: (S, L) -> Option<S>, part: S -> C, partStep: (C, M) -> Option<C>, move: (S, L) -> Option<M>,
    s: S, labels: seq<L>)
    requires forall s: S, l: L :: step(s, l).Some? ==>
               Maybe(partStep, part(s), move(s, l)) == Some(part(step(s, l).value))
    requires Exec(step, s, labels).Some?
    ensures Exec(partStep, part(s), Project(step, move, s, labels)) == Some(part(Exec(step, s, labels).value))
    decreases |labels|
  {
    if labels != [] {
      var next := step(s, labels[0]).value;
      Projection(step, part, partStep, move, next, labels[1..]);
      var rest := Project(step, move, next, labels[1..]);
      match move(s, labels[0])
      case None => assert [] + rest == rest;
      case Some(m) => assert ([m] + rest)[1..] == rest;
    }
  }
}
