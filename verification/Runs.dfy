/** Runs of a labelled transition system.

    Each concurrent component is a function `step(s, a)`: `None` when the atomic action `a` cannot
    happen in state `s`, and the state it leads to otherwise.  An interleaving of goroutines is a
    sequence of such actions, so a fact about every run is a fact about every schedule. */
module Runs {

  datatype Option<+T> = None | Some(value: T)

  /** The actions of `run` can happen one after the other, starting in `s`. */
  ghost predicate Legal<S, A>(step: (S, A) -> Option<S>, s: S, run: seq<A>)
    decreases |run|
  {
    run == [] ||
    (step(s, run[0]).Some? && Legal(step, step(s, run[0]).value, run[1..]))
  }

  /** The state in which a legal run ends. */
  ghost function After<S, A>(step: (S, A) -> Option<S>, s: S, run: seq<A>): S
    requires Legal(step, s, run)
    decreases |run|
  {
    if run == [] then s else After(step, step(s, run[0]).value, run[1..])
  }

  /** A legal run, one action at a time. */
  lemma Cons<S, A>(step: (S, A) -> Option<S>, s: S, a: A, rest: seq<A>)
    requires step(s, a).Some? && Legal(step, step(s, a).value, rest)
    ensures Legal(step, s, [a] + rest)
    ensures After(step, s, [a] + rest) == After(step, step(s, a).value, rest)
  {
    assert ([a] + rest)[1..] == rest;
  }

  /** A run of two actions. */
  lemma Twice<S, A>(step: (S, A) -> Option<S>, s: S, a: A, s': S, b: A, s'': S)
    requires step(s, a) == Some(s') && step(s', b) == Some(s'')
    ensures Legal(step, s, [a, b]) && After(step, s, [a, b]) == s''
  {
    Cons(step, s', b, []);
    Cons(step, s, a, [b]);
    assert [a] + [b] == [a, b];
  }

  ghost predicate Inductive<S(!new), A(!new)>(step: (S, A) -> Option<S>, inv: S -> bool) {
    forall s, a :: inv(s) && step(s, a).Some? ==> inv(step(s, a).value)
  }

  /** What every step keeps, every run keeps. */
  lemma {:induction false} InvariantHolds<S(!new), A(!new)>(
    step: (S, A) -> Option<S>, inv: S -> bool, s: S, run: seq<A>)
    requires inv(s) && Inductive(step, inv)
    requires Legal(step, s, run)
    ensures inv(After(step, s, run))
    decreases |run|
  {
    if run != [] {
      InvariantHolds(step, inv, step(s, run[0]).value, run[1..]);
    }
  }

  /** A run can be cut anywhere: both halves are runs, and the second starts where the first ends. */
  lemma {:induction false} Split<S, A>(step: (S, A) -> Option<S>, s: S, first: seq<A>, second: seq<A>)
    ensures Legal(step, s, first + second) <==>
            Legal(step, s, first) && Legal(step, After(step, s, first), second)
    ensures Legal(step, s, first + second) ==>
            After(step, s, first + second) == After(step, After(step, s, first), second)
    decreases |first|
  {
    if first == [] {
      assert first + second == second;
    } else {
      assert (first + second)[1..] == first[1..] + second;
      if step(s, first[0]).Some? {
        Split(step, step(s, first[0]).value, first[1..], second);
      }
    }
  }

  /** How many actions of `run` satisfy `p`. */
  ghost function Count<A>(run: seq<A>, p: A -> bool): nat {
    if run == [] then 0 else (if p(run[0]) then 1 else 0) + Count(run[1..], p)
  }

  ghost predicate Counts<S(!new), A(!new)>(
    step: (S, A) -> Option<S>, inv: S -> bool, p: A -> bool, measure: S -> int)
  {
    forall s, a :: inv(s) && step(s, a).Some? ==>
      measure(step(s, a).value) == measure(s) + if p(a) then 1 else 0
  }

  /** A measure that exactly the actions satisfying `p` raise, by one, counts them. */
  lemma {:induction false} Counted<S(!new), A(!new)>(
    step: (S, A) -> Option<S>, inv: S -> bool, p: A -> bool, measure: S -> int, s: S, run: seq<A>)
    requires inv(s) && Inductive(step, inv) && Counts(step, inv, p, measure)
    requires Legal(step, s, run)
    ensures measure(After(step, s, run)) == measure(s) + Count(run, p)
    decreases |run|
  {
    if run != [] {
      Counted(step, inv, p, measure, step(s, run[0]).value, run[1..]);
    }
  }

  ghost predicate Admits<S(!new), A(!new)>(
    step: (S, A) -> Option<S>, inv: S -> bool, p: A -> bool, measure: S -> int)
  {
    forall s, a :: inv(s) && step(s, a).Some? ==>
      measure(step(s, a).value) <= measure(s) + if p(a) then 1 else 0
  }

  /** A measure that only actions satisfying `p` raise, by at most one, is bounded by their number. */
  lemma {:induction false} AtMost<S(!new), A(!new)>(
    step: (S, A) -> Option<S>, inv: S -> bool, p: A -> bool, measure: S -> int, s: S, run: seq<A>)
    requires inv(s) && Inductive(step, inv) && Admits(step, inv, p, measure)
    requires Legal(step, s, run)
    ensures measure(After(step, s, run)) <= measure(s) + Count(run, p)
    decreases |run|
  {
    if run != [] {
      AtMost(step, inv, p, measure, step(s, run[0]).value, run[1..]);
    }
  }

  ghost predicate Spends<S(!new), A(!new)>(
    step: (S, A) -> Option<S>, inv: S -> bool, p: A -> bool, credit: S -> nat)
  {
    forall s, a :: inv(s) && step(s, a).Some? ==>
      credit(step(s, a).value) + (if p(a) then 1 else 0) <= credit(s)
  }

  /** If every action satisfying `p` uses up one unit of a credit that nothing ever refills, a run
      contains at most as many of them as its first state has credit. */
  lemma {:induction false} BudgetBound<S(!new), A(!new)>(
    step: (S, A) -> Option<S>, inv: S -> bool, p: A -> bool, credit: S -> nat, s: S, run: seq<A>)
    requires inv(s) && Inductive(step, inv) && Spends(step, inv, p, credit)
    requires Legal(step, s, run)
    ensures Count(run, p) <= credit(s)
    decreases |run|
  {
    if run != [] {
      BudgetBound(step, inv, p, credit, step(s, run[0]).value, run[1..]);
    }
  }

  /** What the actions of a run contribute, in order. */
  ghost function Collect<A, T>(run: seq<A>, f: A -> seq<T>): seq<T> {
    if run == [] then [] else f(run[0]) + Collect(run[1..], f)
  }

  ghost predicate Records<S(!new), A(!new), T>(
    step: (S, A) -> Option<S>, inv: S -> bool, hist: S -> seq<T>, f: A -> seq<T>)
  {
    forall s, a :: inv(s) && step(s, a).Some? ==> hist(step(s, a).value) == hist(s) + f(a)
  }

  /** A history to which every action adds its contribution is the history of the run's actions. */
  lemma {:induction false} Recorded<S(!new), A(!new), T>(
    step: (S, A) -> Option<S>, inv: S -> bool, hist: S -> seq<T>, f: A -> seq<T>, s: S, run: seq<A>)
    requires inv(s) && Inductive(step, inv) && Records(step, inv, hist, f)
    requires Legal(step, s, run)
    ensures hist(After(step, s, run)) == hist(s) + Collect(run, f)
    decreases |run|
  {
    if run == [] {
      assert hist(s) + [] == hist(s);
    } else {
      var s' := step(s, run[0]).value;
      Recorded(step, inv, hist, f, s', run[1..]);
      assert hist(s) + f(run[0]) + Collect(run[1..], f) == hist(s) + (f(run[0]) + Collect(run[1..], f));
    }
  }
}
