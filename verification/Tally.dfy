/** Totals over the goroutines of a component, or over the contents of a queue. */
module Tally {

  ghost function Sum<A>(xs: seq<A>, f: A -> nat): nat {
    if xs == [] then 0 else f(xs[0]) + Sum(xs[1..], f)
  }

  lemma {:induction false} SumConcat<A>(xs: seq<A>, ys: seq<A>, f: A -> nat)
    ensures Sum(xs + ys, f) == Sum(xs, f) + Sum(ys, f)
  {
    if xs == [] {
      assert xs + ys == ys;
    } else {
      assert (xs + ys)[1..] == xs[1..] + ys;
      SumConcat(xs[1..], ys, f);
    }
  }

  lemma SumAppend<A>(xs: seq<A>, x: A, f: A -> nat)
    ensures Sum(xs + [x], f) == Sum(xs, f) + f(x)
  {
    SumConcat(xs, [x], f);
    assert Sum([x], f) == f(x) + Sum([], f);
  }

  /** Cutting out one position takes exactly its share away. */
  lemma SumRemove<A>(xs: seq<A>, i: nat, f: A -> nat)
    requires i < |xs|
    ensures Sum(xs, f) == Sum(xs[..i] + xs[i + 1..], f) + f(xs[i])
  {
    SumConcat(xs[..i], xs[i..], f);
    SumConcat(xs[..i], xs[i + 1..], f);
    assert xs == xs[..i] + xs[i..];
  }

  /** Replacing one position swaps its share for the new one. */
  lemma SumUpdate<A>(xs: seq<A>, i: nat, x: A, f: A -> nat)
    requires i < |xs|
    ensures Sum(xs[i := x], f) == Sum(xs, f) - f(xs[i]) + f(x)
    ensures f(xs[i]) <= Sum(xs, f)
  {
    SumRemove(xs, i, f);
    SumRemove(xs[i := x], i, f);
    assert xs[i := x][..i] + xs[i := x][i + 1..] == xs[..i] + xs[i + 1..];
  }

  /** Two positions count twice. */
  lemma SumPair<A>(xs: seq<A>, i: nat, j: nat, f: A -> nat)
    requires i < |xs| && j < |xs| && i != j
    ensures f(xs[i]) + f(xs[j]) <= Sum(xs, f)
  {
    SumRemove(xs, i, f);
    var rest := xs[..i] + xs[i + 1..];
    SumRemove(rest, if j < i then j else j - 1, f);
  }

  /** A total of nothing stays nothing under any measure that is nothing where the first one is. */
  lemma {:induction false} SumZero<A(!new)>(xs: seq<A>, f: A -> nat, g: A -> nat)
    requires Sum(xs, f) == 0
    requires forall x :: f(x) == 0 ==> g(x) == 0
    ensures Sum(xs, g) == 0
  {
    if xs != [] {
      SumZero(xs[1..], f, g);
    }
  }

  lemma {:induction false} SumNothing<A>(xs: seq<A>, f: A -> nat)
    ensures Sum(xs, f) == 0 <==> forall i :: 0 <= i < |xs| ==> f(xs[i]) == 0
  {
    if xs != [] {
      var rest := xs[1..];
      SumNothing(rest, f);
      assert forall i :: 0 <= i < |rest| ==> rest[i] == xs[i + 1];
      assert forall i :: 0 < i < |xs| ==> xs[i] == rest[i - 1];
    }
  }
}
