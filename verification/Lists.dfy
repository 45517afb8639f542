/** Sorting, filtering, and keeping the latest version per key: the list operations the engine is written with. */
module Lists {

  // ---------- Sorting ----------

  function Insert<T>(x: T, xs: seq<T>, less: (T, T) -> bool): seq<T> {
    if xs == [] || less(x, xs[0]) then [x] + xs else [xs[0]] + Insert(x, xs[1..], less)
  }

  /** Stable sort. */
  function Sort<T>(xs: seq<T>, less: (T, T) -> bool): seq<T> {
    if xs == [] then [] else Insert(xs[|xs| - 1], Sort(xs[..|xs| - 1], less), less)
  }

  lemma {:induction false} InsertPermutes<T>(x: T, xs: seq<T>, less: (T, T) -> bool)
    ensures multiset(Insert(x, xs, less)) == multiset(xs) + multiset{x}
  {
    if xs == [] || less(x, xs[0]) {
    } else {
      InsertPermutes(x, xs[1..], less);
      assert xs == [xs[0]] + xs[1..];
    }
  }

  lemma {:induction false} InsertElements<T>(x: T, xs: seq<T>, less: (T, T) -> bool, y: T)
    requires y in Insert(x, xs, less)
    ensures y == x || y in xs
  {
    if xs == [] || less(x, xs[0]) {
    } else if y != xs[0] {
      InsertElements(x, xs[1..], less, y);
    }
  }

  lemma {:induction false} SortPermutes<T>(xs: seq<T>, less: (T, T) -> bool)
    ensures multiset(Sort(xs, less)) == multiset(xs)
  {
    if xs != [] {
      var init, last := xs[..|xs| - 1], xs[|xs| - 1];
      SortPermutes(init, less);
      InsertPermutes(last, Sort(init, less), less);
      assert xs == init + [last];
      hide Insert;
    }
  }

  lemma SortKeepsElements<T>(xs: seq<T>, less: (T, T) -> bool, x: T)
    ensures x in Sort(xs, less) <==> x in xs
  {
    SortPermutes(xs, less);
    assert x in xs <==> x in multiset(xs);
    assert x in Sort(xs, less) <==> x in multiset(Sort(xs, less));
  }

  /** Keys that never decrease along a list. */
  predicate Ascending<T>(xs: seq<T>, key: T -> int) {
    forall i, j :: 0 <= i < j < |xs| ==> key(xs[i]) <= key(xs[j])
  }

  lemma {:induction false} InsertKeepsOrder<T(!new)>(x: T, xs: seq<T>, less: (T, T) -> bool, key: T -> int)
    requires Ascending(xs, key)
    requires forall a, b :: (key(a) < key(b) ==> less(a, b)) && (less(a, b) ==> key(a) <= key(b))
    ensures Ascending(Insert(x, xs, less), key)
  {
    if xs == [] || less(x, xs[0]) {
    } else {
      InsertKeepsOrder(x, xs[1..], less, key);
      var rest := Insert(x, xs[1..], less);
      forall k | 0 <= k < |rest|
        ensures key(xs[0]) <= key(rest[k])
      {
        InsertElements(x, xs[1..], less, rest[k]);
      }
    }
  }

  /** Sorting by an order that refines a key leaves the key ascending. */
  lemma {:induction false} SortAscends<T(!new)>(xs: seq<T>, less: (T, T) -> bool, key: T -> int)
    requires forall a, b :: (key(a) < key(b) ==> less(a, b)) && (less(a, b) ==> key(a) <= key(b))
    ensures Ascending(Sort(xs, less), key)
  {
    if xs != [] {
      SortAscends(xs[..|xs| - 1], less, key);
      InsertKeepsOrder(xs[|xs| - 1], Sort(xs[..|xs| - 1], less), less, key);
    }
  }

  /** Some member of a set, whichever comes first. */
  method AnyOf<T(==)>(xs: set<T>) returns (x: T)
    requires xs != {}
    ensures x in xs
  {
    x :| x in xs;
  }

  // ---------- Filtering ----------

  function Filter<T>(xs: seq<T>, keep: T -> bool): seq<T> {
    if xs == [] then []
    else Filter(xs[..|xs| - 1], keep) + if keep(xs[|xs| - 1]) then [xs[|xs| - 1]] else []
  }

  lemma {:induction false} FilterKeeps<T>(xs: seq<T>, keep: T -> bool, x: T)
    ensures x in Filter(xs, keep) <==> x in xs && keep(x)
  {
    if xs != [] {
      var init, last := xs[..|xs| - 1], xs[|xs| - 1];
      FilterKeeps(init, keep, x);
      assert xs == init + [last];
    }
  }

  // ---------- The latest version per key ----------

  /** Puts `x` in its place; of two versions with the same key only a newer one replaces the other. */
  function Upsert<T>(xs: seq<T>, x: T, order: (T, T) -> int, newer: (T, T) -> bool): seq<T> {
    if xs == [] || order(x, xs[0]) < 0 then [x] + xs
    else if order(x, xs[0]) == 0 then if newer(x, xs[0]) then [x] + xs[1..] else xs
    else [xs[0]] + Upsert(xs[1..], x, order, newer)
  }

  function Latest<T>(xs: seq<T>, visible: T -> bool, order: (T, T) -> int, newer: (T, T) -> bool): seq<T> {
    if xs == [] then []
    else
      var kept := Latest(xs[..|xs| - 1], visible, order, newer);
      if visible(xs[|xs| - 1]) then Upsert(kept, xs[|xs| - 1], order, newer) else kept
  }

  /** Versions that are hidden at a later cutoff cannot matter at an earlier one. */
  lemma {:induction false} LatestIgnoresHidden<T(!new)>(xs: seq<T>, early: T -> bool, late: T -> bool,
                                                      order: (T, T) -> int, newer: (T, T) -> bool)
    requires forall x :: early(x) ==> late(x)
    ensures Latest(xs, early, order, newer) == Latest(Filter(xs, late), early, order, newer)
  {
    if xs != [] {
      var init, last := xs[..|xs| - 1], xs[|xs| - 1];
      LatestIgnoresHidden(init, early, late, order, newer);
      if late(last) {
        assert Filter(xs, late)[..|Filter(init, late)|] == Filter(init, late);
      } else {
        assert Filter(xs, late) == Filter(init, late);
      }
    }
  }

  lemma {:induction false} UpsertElements<T>(xs: seq<T>, x: T, order: (T, T) -> int, newer: (T, T) -> bool, y: T)
    requires y in Upsert(xs, x, order, newer)
    ensures y in xs || y == x
  {
    if xs == [] || order(x, xs[0]) <= 0 {
    } else if y != xs[0] {
      UpsertElements(xs[1..], x, order, newer, y);
    }
  }

  lemma {:induction false} LatestElements<T>(xs: seq<T>, visible: T -> bool, order: (T, T) -> int,
                                             newer: (T, T) -> bool, y: T)
    requires y in Latest(xs, visible, order, newer)
    ensures y in xs && visible(y)
  {
    var init, last := xs[..|xs| - 1], xs[|xs| - 1];
    var kept := Latest(init, visible, order, newer);
    if visible(last) {
      UpsertElements(kept, last, order, newer, y);
    }
    if y in kept {
      LatestElements(init, visible, order, newer, y);
    }
  }

  /** `order` compares keys: it is determined by a pair of integers compared lexicographically. */
  ghost predicate Orders<T(!new)>(order: (T, T) -> int, major: T -> int, minor: T -> int) {
    forall a, b ::
      && (order(a, b) == 0 <==> major(a) == major(b) && minor(a) == minor(b))
      && (order(a, b) < 0 <==> major(a) < major(b) || (major(a) == major(b) && minor(a) < minor(b)))
  }

  predicate StrictlyOrdered<T>(xs: seq<T>, order: (T, T) -> int) {
    forall i, j :: 0 <= i < j < |xs| ==> order(xs[i], xs[j]) < 0
  }

  lemma {:induction false} UpsertOrdered<T(!new)>(xs: seq<T>, x: T, order: (T, T) -> int, newer: (T, T) -> bool,
                                                major: T -> int, minor: T -> int)
    requires Orders(order, major, minor) && StrictlyOrdered(xs, order)
    ensures StrictlyOrdered(Upsert(xs, x, order, newer), order)
  {
    if xs == [] || order(x, xs[0]) <= 0 {
    } else {
      UpsertOrdered(xs[1..], x, order, newer, major, minor);
      var rest := Upsert(xs[1..], x, order, newer);
      forall k | 0 <= k < |rest|
        ensures order(xs[0], rest[k]) < 0
      {
        UpsertElements(xs[1..], x, order, newer, rest[k]);
      }
    }
  }

  lemma {:induction false} LatestOrdered<T(!new)>(xs: seq<T>, visible: T -> bool, order: (T, T) -> int,
                                                newer: (T, T) -> bool, major: T -> int, minor: T -> int)
    requires Orders(order, major, minor)
    ensures StrictlyOrdered(Latest(xs, visible, order, newer), order)
  {
    if xs != [] {
      LatestOrdered(xs[..|xs| - 1], visible, order, newer, major, minor);
      if visible(xs[|xs| - 1]) {
        UpsertOrdered(Latest(xs[..|xs| - 1], visible, order, newer), xs[|xs| - 1], order, newer, major, minor);
      }
    }
  }

  /** Being no newer carries over a chain of versions. */
  ghost predicate NoNewerIsTransitive<T(!new)>(newer: (T, T) -> bool) {
    && (forall a :: !newer(a, a))
    && (forall a, b :: newer(a, b) ==> !newer(b, a))
    && (forall a, b, c :: !newer(a, b) && !newer(b, c) ==> !newer(a, c))
  }

  /** After an upsert, each key is still represented, by a version no older than before. */
  lemma {:induction false} UpsertKeepsKeys<T(!new)>(xs: seq<T>, x: T, order: (T, T) -> int, newer: (T, T) -> bool,
                                                  major: T -> int, minor: T -> int, y: T)
    requires Orders(order, major, minor)
    requires y == x || y in xs
    ensures exists z :: z in Upsert(xs, x, order, newer) && order(y, z) == 0
                        && (NoNewerIsTransitive(newer) ==> !newer(y, z))
  {
    var up := Upsert(xs, x, order, newer);
    if xs == [] || order(x, xs[0]) < 0 {
      assert y in up;
      assert order(y, y) == 0;
    } else if order(x, xs[0]) == 0 {
      if y == x || y == xs[0] {
        assert up[0] in up && order(y, up[0]) == 0;
      } else {
        assert y in xs[1..] && y in up && order(y, y) == 0;
      }
    } else if y == xs[0] {
      assert up[0] == y && order(y, y) == 0;
    } else {
      UpsertKeepsKeys(xs[1..], x, order, newer, major, minor, y);
      var rest := Upsert(xs[1..], x, order, newer);
      var z :| z in rest && order(y, z) == 0 && (NoNewerIsTransitive(newer) ==> !newer(y, z));
      assert z in up;
    }
  }

  /** Every visible version is represented by one with the same key, and no visible version is newer than it. */
  lemma {:induction false} LatestCoversKeys<T(!new)>(xs: seq<T>, visible: T -> bool, order: (T, T) -> int,
                                                   newer: (T, T) -> bool, major: T -> int, minor: T -> int, y: T)
    requires Orders(order, major, minor)
    requires y in xs && visible(y)
    ensures exists z :: z in Latest(xs, visible, order, newer) && order(y, z) == 0
                        && (NoNewerIsTransitive(newer) ==> !newer(y, z))
  {
    var init, last := xs[..|xs| - 1], xs[|xs| - 1];
    assert xs == init + [last];
    var kept := Latest(init, visible, order, newer);
    if y in init {
      LatestCoversKeys(init, visible, order, newer, major, minor, y);
      var z :| z in kept && order(y, z) == 0 && (NoNewerIsTransitive(newer) ==> !newer(y, z));
      if visible(last) {
        UpsertKeepsKeys(kept, last, order, newer, major, minor, z);
        var w :| w in Upsert(kept, last, order, newer) && order(z, w) == 0
                 && (NoNewerIsTransitive(newer) ==> !newer(z, w));
        assert order(y, w) == 0;
      }
    } else {
      UpsertKeepsKeys(kept, last, order, newer, major, minor, y);
    }
  }
}
