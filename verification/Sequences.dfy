/** Filtering and concatenating sequences. */
module Sequences {

  function Filter<T>(keep: T -> bool, xs: seq<T>): seq<T> {
    if xs == [] then []
    else
      var n := |xs| - 1;
      Filter(keep, xs[..n]) + if keep(xs[n]) then [xs[n]] else []
  }

  function Map<T, U>(f: T -> U, xs: seq<T>): (ys: seq<U>)
    ensures |ys| == |xs|
    ensures forall i :: 0 <= i < |xs| ==> ys[i] == f(xs[i])
  {
    if xs == [] then [] else Map(f, xs[..|xs| - 1]) + [f(xs[|xs| - 1])]
  }

  function Concat<T>(xss: seq<seq<T>>): seq<T> {
    if xss == [] then [] else xss[0] + Concat(xss[1..])
  }

  lemma {:induction false} ConcatSnoc<T>(xss: seq<seq<T>>, xs: seq<T>)
    ensures Concat(xss + [xs]) == Concat(xss) + xs
  {
    if xss == [] {
      assert xss + [xs] == [xs];
    } else {
      ConcatSnoc(xss[1..], xs);
      assert (xss + [xs])[1..] == xss[1..] + [xs];
    }
  }

  lemma FilterStep<T>(keep: T -> bool, xs: seq<T>, n: nat)
    requires n < |xs|
    ensures Filter(keep, xs[..n + 1]) == Filter(keep, xs[..n]) + if keep(xs[n]) then [xs[n]] else []
  {
    assert xs[..n + 1][..n] == xs[..n];
  }

  lemma MapSnoc<T, U>(f: T -> U, xs: seq<T>, x: T)
    ensures Map(f, xs + [x]) == Map(f, xs) + [f(x)]
  {
    assert (xs + [x])[..|xs|] == xs;
  }

  lemma FilterSnoc<T>(keep: T -> bool, xs: seq<T>, x: T)
    ensures Filter(keep, xs + [x]) == Filter(keep, xs) + if keep(x) then [x] else []
  {
    assert (xs + [x])[..|xs|] == xs;
  }

  lemma {:induction false} FilterAppend<T>(keep: T -> bool, a: seq<T>, b: seq<T>)
    ensures Filter(keep, a + b) == Filter(keep, a) + Filter(keep, b)
  {
    if b == [] {
      assert a + b == a;
    } else {
      var n := |b| - 1;
      FilterAppend(keep, a, b[..n]);
      assert (a + b)[..|a| + n] == a + b[..n];
    }
  }

  /** A first filter that lets through all that the second one keeps makes no
      difference, even with a translation in between. */
  lemma {:induction false} FilterTwice<T, U>(keep: U -> bool, f: T -> U, before: T -> bool, xs: seq<T>)
    requires forall i :: 0 <= i < |xs| && keep(f(xs[i])) ==> before(xs[i])
    ensures Filter(keep, Map(f, Filter(before, xs))) == Filter(keep, Map(f, xs))
  {
    if xs != [] {
      var ys, x := xs[..|xs| - 1], xs[|xs| - 1];
      var first := Filter(before, ys);
      FilterTwice(keep, f, before, ys);
      assert Map(f, xs) == Map(f, ys) + [f(x)];
      FilterSnoc(keep, Map(f, ys), f(x));
      if before(x) {
        assert Filter(before, xs) == first + [x];
        MapSnoc(f, first, x);
        FilterSnoc(keep, Map(f, first), f(x));
      } else {
        assert Filter(before, xs) == first;
      }
    }
  }

  /** `ys` consists of exactly those of the first `n` elements that `keep` holds
      of, in their order and each once: `at` gives their positions. */
  predicate Picks<T(==)>(keep: T -> bool, xs: seq<T>, n: nat, at: seq<nat>, ys: seq<T>)
    requires n <= |xs|
  {
    && |ys| == |at|
    && (forall i :: 0 <= i < |at| ==> at[i] < n && keep(xs[at[i]]) && ys[i] == xs[at[i]])
    && (forall i, j :: 0 <= i < j < |at| ==> at[i] < at[j])
    && (forall k :: 0 <= k < n && keep(xs[k]) ==> k in at)
  }

  lemma PicksStep<T>(keep: T -> bool, xs: seq<T>, n: nat, at: seq<nat>, ys: seq<T>)
    requires n < |xs| && Picks(keep, xs, n, at, ys)
    ensures !keep(xs[n]) ==> Picks(keep, xs, n + 1, at, ys)
    ensures keep(xs[n]) ==> Picks(keep, xs, n + 1, at + [n], ys + [xs[n]])
  {
  }

  lemma {:induction false} FilterPicks<T>(keep: T -> bool, xs: seq<T>, n: nat) returns (at: seq<nat>)
    requires n <= |xs|
    ensures Picks(keep, xs, n, at, Filter(keep, xs[..n]))
  {
    if n == 0 {
      at := [];
    } else {
      at := FilterPicks(keep, xs, n - 1);
      PicksStep(keep, xs, n - 1, at, Filter(keep, xs[..n - 1]));
      FilterStep(keep, xs, n - 1);
      at := if keep(xs[n - 1]) then at + [n - 1] else at;
    }
  }
}
