// Of several versions of one thing the latest selection keeps one: the first of the newest that are visible.
module Versions {
  import opened Outcomes
  import opened Lists

  /** The versions of one key. */
  function KeyAt<T>(major: T -> int, minor: T -> int, m: int, n: int): T -> bool {
    (x: T) => major(x) == m && minor(x) == n
  }

  /** The version kept among those that are visible. */
  function Pick<T>(xs: seq<T>, visible: T -> bool, mine: T -> bool, newer: (T, T) -> bool): Option<T> {
    if xs == [] then None
    else
      var found := Pick(xs[..|xs| - 1], visible, mine, newer);
      var x := xs[|xs| - 1];
      if visible(x) && mine(x) && (found.None? || newer(x, found.value)) then Some(x) else found
  }

  function FirstOf<T>(xs: seq<T>, mine: T -> bool): Option<T> {
    if xs == [] then None else if mine(xs[0]) then Some(xs[0]) else FirstOf(xs[1..], mine)
  }

  lemma {:induction false} NoneOf<T>(xs: seq<T>, mine: T -> bool)
    requires forall k :: 0 <= k < |xs| ==> !mine(xs[k])
    ensures FirstOf(xs, mine) == None
  {
    if xs != [] {
      NoneOf(xs[1..], mine);
    }
  }

  lemma {:induction false} FirstOfIsThere<T>(xs: seq<T>, mine: T -> bool)
    ensures var r := FirstOf(xs, mine); r.Some? ==> r.value in xs && mine(r.value)
    ensures FirstOf(xs, mine).None? ==> forall x :: x in xs ==> !mine(x)
  {
    if xs != [] {
      FirstOfIsThere(xs[1..], mine);
      forall x
        ensures x in xs <==> x == xs[0] || x in xs[1..]
      {
      }
    }
  }

  /** What an upsert does to the version of a key. */
  lemma {:induction false} UpsertFirstOf<T(!new)>(xs: seq<T>, x: T, order: (T, T) -> int, newer: (T, T) -> bool,
                                                 major: T -> int, minor: T -> int, m: int, n: int)
    requires Orders(order, major, minor) && StrictlyOrdered(xs, order)
    ensures var mine := KeyAt(major, minor, m, n);
      var found := FirstOf(xs, mine);
      FirstOf(Upsert(xs, x, order, newer), mine)
        == if mine(x) && (found.None? || newer(x, found.value)) then Some(x) else found
  {
    var mine := KeyAt(major, minor, m, n);
    if xs == [] {
      assert ([x] + xs)[1..] == xs;
    } else if order(x, xs[0]) < 0 {
      assert ([x] + xs)[1..] == xs;
      if mine(x) {
        NoneOf(xs, mine);
      }
    } else if order(x, xs[0]) == 0 {
      assert ([x] + xs[1..])[1..] == xs[1..];
    } else {
      UpsertFirstOf(xs[1..], x, order, newer, major, minor, m, n);
      assert ([xs[0]] + Upsert(xs[1..], x, order, newer))[1..] == Upsert(xs[1..], x, order, newer);
    }
  }

  /** The latest selection holds, of each key, the version picked. */
  lemma {:induction false} LatestPicks<T(!new)>(xs: seq<T>, visible: T -> bool, order: (T, T) -> int,
                                                newer: (T, T) -> bool, major: T -> int, minor: T -> int, m: int, n: int)
    requires Orders(order, major, minor)
    ensures var mine := KeyAt(major, minor, m, n);
      FirstOf(Latest(xs, visible, order, newer), mine) == Pick(xs, visible, mine, newer)
  {
    if xs != [] {
      var init := xs[..|xs| - 1];
      LatestPicks(init, visible, order, newer, major, minor, m, n);
      LatestOrdered(init, visible, order, newer, major, minor);
      UpsertFirstOf(Latest(init, visible, order, newer), xs[|xs| - 1], order, newer, major, minor, m, n);
    }
  }

  // ---------- Picking earlier ----------

  /** Among the versions of a key, being newer ranks them. */
  ghost predicate Ranked<T(!new)>(xs: seq<T>, mine: T -> bool, newer: (T, T) -> bool) {
    && (forall a, b :: a in xs && b in xs && mine(a) && mine(b) && newer(a, b) ==> !newer(b, a))
    && (forall a, b, c :: a in xs && b in xs && c in xs && mine(a) && mine(b) && mine(c)
                          && !newer(a, b) && !newer(b, c) ==>
          !newer(a, c))
  }

  lemma RankedPrefix<T(!new)>(xs: seq<T>, mine: T -> bool, newer: (T, T) -> bool)
    requires xs != [] && Ranked(xs, mine, newer)
    ensures Ranked(xs[..|xs| - 1], mine, newer)
  {
    forall x | x in xs[..|xs| - 1]
      ensures x in xs
    {
    }
  }

  /** No visible version of the key is newer than the one picked. */
  lemma {:induction false} PickIsNewest<T(!new)>(xs: seq<T>, visible: T -> bool, mine: T -> bool, newer: (T, T) -> bool)
    requires Ranked(xs, mine, newer)
    ensures var r := Pick(xs, visible, mine, newer);
      && (r.Some? ==> r.value in xs && visible(r.value) && mine(r.value))
      && (forall y :: y in xs && visible(y) && mine(y) ==> r.Some? && !newer(y, r.value))
  {
    if xs != [] {
      var init, x := xs[..|xs| - 1], xs[|xs| - 1];
      RankedPrefix(xs, mine, newer);
      PickIsNewest(init, visible, mine, newer);
      var before, r := Pick(init, visible, mine, newer), Pick(xs, visible, mine, newer);
      forall y | y in xs && visible(y) && mine(y)
        ensures r.Some? && !newer(y, r.value)
      {
        if y != x {
          assert y in init;
          assert !newer(y, before.value);
        }
      }
    }
  }

  /** The version picked later is picked earlier too, if it was visible then. */
  lemma {:induction false} PickIsEarlier<T(!new)>(xs: seq<T>, early: T -> bool, late: T -> bool, mine: T -> bool,
                                                  newer: (T, T) -> bool)
    requires forall x :: early(x) ==> late(x)
    requires Ranked(xs, mine, newer)
    requires Pick(xs, late, mine, newer).Some? && early(Pick(xs, late, mine, newer).value)
    ensures Pick(xs, early, mine, newer) == Pick(xs, late, mine, newer)
  {
    var init, x := xs[..|xs| - 1], xs[|xs| - 1];
    RankedPrefix(xs, mine, newer);
    PickIsNewest(init, early, mine, newer);
    PickIsNewest(init, late, mine, newer);
    var before, after := Pick(init, early, mine, newer), Pick(init, late, mine, newer);
    if Pick(xs, late, mine, newer) == after {
      PickIsEarlier(init, early, late, mine, newer);
    } else if before.Some? {
      assert x in xs && before.value in xs && after.value in xs;
    }
  }
}
