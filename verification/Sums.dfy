/** Sums of a quantity over a sequence, and how they react to the ways the engine changes its lists. */
module Sums {

  function Sum<T>(xs: seq<T>, f: T -> int): int {
    if xs == [] then 0 else Sum(xs[..|xs| - 1], f) + f(xs[|xs| - 1])
  }

  lemma SumAppend<T>(xs: seq<T>, x: T, f: T -> int)
    ensures Sum(xs + [x], f) == Sum(xs, f) + f(x)
  {
    assert (xs + [x])[..|xs|] == xs;
  }

  lemma {:induction false} SumConcat<T>(xs: seq<T>, ys: seq<T>, f: T -> int)
    ensures Sum(xs + ys, f) == Sum(xs, f) + Sum(ys, f)
  {
    if ys == [] {
      assert xs + ys == xs;
    } else {
      var init, last := ys[..|ys| - 1], ys[|ys| - 1];
      SumConcat(xs, init, f);
      assert xs + ys == (xs + init) + [last];
      SumAppend(xs + init, last, f);
    }
  }

  lemma SumSplit<T>(xs: seq<T>, n: nat, f: T -> int)
    requires n < |xs|
    ensures Sum(xs, f) == Sum(xs[..n], f) + f(xs[n]) + Sum(xs[n + 1..], f)
  {
    assert xs == (xs[..n] + [xs[n]]) + xs[n + 1..];
    SumConcat(xs[..n] + [xs[n]], xs[n + 1..], f);
    SumAppend(xs[..n], xs[n], f);
  }

  lemma SumUpdate<T>(xs: seq<T>, n: nat, x: T, f: T -> int)
    requires n < |xs|
    ensures Sum(xs[n := x], f) == Sum(xs, f) - f(xs[n]) + f(x)
  {
    var ys := xs[n := x];
    SumSplit(xs, n, f);
    SumSplit(ys, n, f);
    assert ys[..n] == xs[..n] && ys[n + 1..] == xs[n + 1..];
  }

  lemma {:induction false} SumNonNegative<T>(xs: seq<T>, f: T -> int)
    requires forall x :: x in xs ==> f(x) >= 0
    ensures Sum(xs, f) >= 0
  {
    if xs != [] {
      SumNonNegative(xs[..|xs| - 1], f);
    }
  }

  /** With no negative terms, no single term exceeds the sum. */
  lemma TermWithinSum<T>(xs: seq<T>, n: nat, f: T -> int)
    requires n < |xs|
    requires forall x :: x in xs ==> f(x) >= 0
    ensures f(xs[n]) <= Sum(xs, f)
  {
    SumSplit(xs, n, f);
    SumNonNegative(xs[..n], f);
    SumNonNegative(xs[n + 1..], f);
  }

  lemma {:induction false} SumIsZero<T>(xs: seq<T>, f: T -> int)
    requires forall x :: x in xs ==> f(x) == 0
    ensures Sum(xs, f) == 0
  {
    if xs != [] {
      SumIsZero(xs[..|xs| - 1], f);
    }
  }

  lemma {:induction false} SumMonotone<T>(xs: seq<T>, f: T -> int, g: T -> int)
    requires forall x :: x in xs ==> f(x) <= g(x)
    ensures Sum(xs, f) <= Sum(xs, g)
  {
    if xs != [] {
      SumMonotone(xs[..|xs| - 1], f, g);
    }
  }

  lemma {:induction false} SumOfDifference<T>(xs: seq<T>, f: T -> int, g: T -> int, h: T -> int)
    requires forall x :: x in xs ==> f(x) == g(x) - h(x)
    ensures Sum(xs, f) == Sum(xs, g) - Sum(xs, h)
  {
    if xs != [] {
      SumOfDifference(xs[..|xs| - 1], f, g, h);
    }
  }

  /** A sum depends on the elements and not on their order. */
  lemma {:induction false} SumPermuted<T>(xs: seq<T>, ys: seq<T>, f: T -> int)
    requires multiset(xs) == multiset(ys)
    ensures Sum(xs, f) == Sum(ys, f)
  {
    if xs == [] {
      assert |ys| == 0 by { assert |multiset(ys)| == |ys| && |multiset(xs)| == 0; }
    } else {
      var init, last := xs[..|xs| - 1], xs[|xs| - 1];
      assert xs == init + [last];
      assert last in multiset(ys);
      var n :| 0 <= n < |ys| && ys[n] == last;
      var rest := ys[..n] + ys[n + 1..];
      assert ys == ys[..n] + [last] + ys[n + 1..];
      assert multiset(init) == multiset(xs) - multiset{last};
      assert multiset(rest) == multiset(ys) - multiset{last};
      SumPermuted(init, rest, f);
      SumSplit(ys, n, f);
      SumConcat(ys[..n], ys[n + 1..], f);
    }
  }
}
