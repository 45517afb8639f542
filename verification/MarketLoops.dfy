/** Market data as the engine walks it: sorted copies scanned in order, and maps overwritten version by version. */
module MarketLoops {
  import opened Outcomes
  import opened Money
  import opened Domain
  import opened Lists
  import opened Sums
  import C = Calendars
  import S = Snapshots
  import E = Execution

  // ---------- Calendar ----------

  function ByOpenAt(): (C.Session, C.Session) -> bool {
    (a: C.Session, b: C.Session) => a.openAt < b.openAt
  }

  function OpenKey(): C.Session -> int {
    (s: C.Session) => s.openAt
  }

  /** The first session of a list to open after an instant. */
  function FirstOpen(sessions: seq<C.Session>, after: int): Option<C.Session> {
    if sessions == [] then None
    else if sessions[0].openAt > after then Some(sessions[0])
    else FirstOpen(sessions[1..], after)
  }

  lemma {:induction false} FirstOpenIsAfter(sessions: seq<C.Session>, after: int)
    ensures FirstOpen(sessions, after).Some? ==>
      FirstOpen(sessions, after).value in sessions && FirstOpen(sessions, after).value.openAt > after
  {
    if sessions != [] {
      FirstOpenIsAfter(sessions[1..], after);
    }
  }

  lemma {:induction false} InsertedOpen(x: C.Session, sessions: seq<C.Session>, after: int)
    requires Ascending(sessions, OpenKey())
    ensures var best := FirstOpen(sessions, after);
      FirstOpen(Insert(x, sessions, ByOpenAt()), after)
      == if x.openAt > after && (best.None? || x.openAt < best.value.openAt) then Some(x) else best
  {
    if sessions == [] || x.openAt < sessions[0].openAt {
      assert ([x] + sessions)[1..] == sessions;
      FirstOpenIsAfter(sessions, after);
      if FirstOpen(sessions, after).Some? {
        var k :| 0 <= k < |sessions| && sessions[k] == FirstOpen(sessions, after).value;
        assert OpenKey()(sessions[0]) <= OpenKey()(sessions[k]);
      }
    } else {
      var rest := Insert(x, sessions[1..], ByOpenAt());
      assert ([sessions[0]] + rest)[1..] == rest;
      InsertedOpen(x, sessions[1..], after);
    }
  }

  /** The first session after an instant in opening order is the earliest of them all. */
  lemma {:induction false} SortedOpen(sessions: seq<C.Session>, after: int)
    ensures FirstOpen(Sort(sessions, ByOpenAt()), after) == C.EarliestAfter(sessions, after)
  {
    if sessions != [] {
      var init, last := sessions[..|sessions| - 1], sessions[|sessions| - 1];
      SortedOpen(init, after);
      SortAscends(init, ByOpenAt(), OpenKey());
      InsertedOpen(last, Sort(init, ByOpenAt()), after);
    }
  }

  method NextSession(c: C.Calendar, after: int) returns (r: Result<C.Session>)
    ensures r == C.NextSession(c, after)
  {
    if !c.Covers(after) {
      return Err(DataStale);
    }
    var sessions := Sort(c.sessions, ByOpenAt());
    SortedOpen(c.sessions, after);
    for n := 0 to |sessions|
      invariant FirstOpen(sessions[n..], after) == C.EarliestAfter(c.sessions, after)
    {
      if sessions[n].openAt > after {
        return Ok(sessions[n]);
      }
      assert sessions[n..][1..] == sessions[n + 1..];
    }
    r := Err(DataStale);
  }

  method LatestCompleted(c: C.Calendar, now: int) returns (r: Result<C.Session>)
    ensures r == C.LatestCompleted(c, now)
  {
    if !c.Covers(now) {
      return Err(DataStale);
    }
    var best := C.NO_SESSION;
    for n := 0 to |c.sessions|
      invariant best == C.LatestClosed(c.sessions[..n], now)
    {
      assert c.sessions[..n + 1][..n] == c.sessions[..n];
      var s := c.sessions[n];
      if s.closeAt <= now && s.closeAt > best.closeAt {
        best := s;
      }
    }
    assert c.sessions[..|c.sessions|] == c.sessions;
    r := if best.date == 0 then Err(DataStale) else Ok(best);
  }

  // ---------- Quotes ----------

  /** Closing prices of the latest session overwritten by the prices given. */
  method QuoteBook(s: S.Snapshot, overrides: map<int, int>) returns (r: Result<map<int, int>>)
    ensures r == S.Quotes(s, overrides)
  {
    hide C.LatestCompleted;
    var latest := LatestCompleted(s.calendar, s.asOf);
    if latest.Err? {
      return Err(latest.error);
    }
    var closes: map<int, int> := map[];
    for n := 0 to |s.bars|
      invariant closes == S.ClosingPrices(s.bars[..n], s.asOf, latest.value.date)
    {
      assert s.bars[..n + 1][..n] == s.bars[..n];
      var b := s.bars[n];
      if b.availableAt <= s.asOf && b.sessionDate == latest.value.date && b.close > 0 {
        closes := closes[b.instrument := b.close];
      }
    }
    assert s.bars[..|s.bars|] == s.bars;
    var prices, names := closes, overrides.Keys;
    while names != {}
      invariant names <= overrides.Keys
      invariant forall id :: id in overrides && id !in names ==> overrides[id] > 0
      invariant prices.Keys == closes.Keys + (overrides.Keys - names)
      invariant forall id :: id in prices ==>
        prices[id] == if id in overrides && id !in names then overrides[id] else closes[id]
      decreases names
    {
      var id := AnyOf(names);
      if overrides[id] <= 0 {
        return Err(InvalidInput);
      }
      prices := prices[id := overrides[id]];
      names := names - {id};
    }
    MergedMap(prices, closes, overrides);
    r := Ok(prices);
  }

  lemma MergedMap(prices: map<int, int>, closes: map<int, int>, overrides: map<int, int>)
    requires prices.Keys == closes.Keys + overrides.Keys
    requires forall id :: id in prices ==> prices[id] == if id in overrides then overrides[id] else closes[id]
    ensures prices == closes + overrides
  {
    var merged := closes + overrides;
    assert merged.Keys == closes.Keys + overrides.Keys;
    forall id | id in merged.Keys
      ensures id in prices && prices[id] == merged[id]
    {
      assert id in prices.Keys;
    }
  }

  // ---------- Volume capacity ----------

  ghost predicate SeenDates(bars: seq<S.Bar>, n: nat, seen: set<int>)
    requires n <= |bars|
  {
    forall d :: d in seen <==> exists k :: 0 <= k < n && bars[k].sessionDate == d
  }

  /** Adds up volumes, refusing a date seen before or a negative volume. */
  method SumVolumes(bars: seq<S.Bar>) returns (r: Result<int>)
    ensures r == if E.CleanVolumes(bars) then Ok(Sum(bars, E.Volume())) else Err(InvalidInput)
  {
    var sum := 0;
    var seen: set<int> := {};
    for n := 0 to |bars|
      invariant sum == Sum(bars[..n], E.Volume())
      invariant SeenDates(bars, n, seen)
      invariant E.CleanVolumes(bars[..n])
    {
      var b := bars[n];
      if b.sessionDate in seen || b.volume < 0 {
        return Err(InvalidInput);
      }
      seen := seen + {b.sessionDate};
      assert bars[..n + 1] == bars[..n] + [b];
      SumAppend(bars[..n], b, E.Volume());
      sum := sum + b.volume;
    }
    assert bars[..|bars|] == bars;
    r := Ok(sum);
  }

  method PreviousVolumeCapacity(bars: seq<S.Bar>, before: int) returns (r: Result<int>)
    ensures r == E.PreviousVolumeCapacity(bars, before)
  {
    hide Sort;
    hide E.CleanVolumes;
    var completed: seq<S.Bar> := [];
    for n := 0 to |bars|
      invariant completed == Filter(bars[..n], E.CompletedBefore(before))
    {
      assert bars[..n + 1][..n] == bars[..n];
      if bars[n].availableAt < before && bars[n].sessionDate < DateOf(before) {
        completed := completed + [bars[n]];
      }
    }
    assert bars[..|bars|] == bars;
    hide Filter;
    completed := Sort(completed, E.ByDate());
    if |completed| < E.VOLUME_SESSIONS {
      return Err(DataStale);
    }
    var recent := completed[|completed| - E.VOLUME_SESSIONS..];
    var sum := SumVolumes(recent);
    if sum.Err? {
      return Err(sum.error);
    }
    var capacity := sum.value / E.VOLUME_SHARE;
    if !FitsInt64(capacity) {
      return Err(NumericOverflow);
    }
    r := Ok(capacity);
  }

  // ---------- Selecting versions ----------

  /** After an upsert the list holds what it held under other keys, and one version of this key. */
  lemma {:induction false} UpsertMembers<T(!new)>(xs: seq<T>, x: T, order: (T, T) -> int, newer: (T, T) -> bool,
                                                major: T -> int, minor: T -> int, y: T)
    requires Orders(order, major, minor) && StrictlyOrdered(xs, order)
    ensures y in Upsert(xs, x, order, newer)
       <==> (y in xs && order(x, y) != 0)
            || (y in xs && order(x, y) == 0 && !newer(x, y))
            || (y == x && forall z :: z in xs && order(x, z) == 0 ==> newer(x, z))
  {
    if xs == [] {
    } else if order(x, xs[0]) < 0 {
      forall z | z in xs
        ensures order(x, z) != 0
      {
        var k :| 0 <= k < |xs| && xs[k] == z;
        assert k > 0 ==> order(xs[0], xs[k]) < 0;
      }
    } else if order(x, xs[0]) == 0 {
      assert xs == [xs[0]] + xs[1..];
      forall z | z in xs[1..]
        ensures order(x, z) != 0
      {
        var k :| 0 <= k < |xs[1..]| && xs[1..][k] == z;
        assert order(xs[0], xs[k + 1]) < 0;
      }
    } else {
      assert xs == [xs[0]] + xs[1..];
      UpsertMembers(xs[1..], x, order, newer, major, minor, y);
    }
  }

  /** Two strictly ordered lists of the same elements are the same list. */
  lemma {:induction false} OrderedListsAgree<T(!new)>(xs: seq<T>, ys: seq<T>, order: (T, T) -> int, major: T -> int,
                                                      minor: T -> int)
    requires Orders(order, major, minor) && StrictlyOrdered(xs, order) && StrictlyOrdered(ys, order)
    requires forall x :: x in xs <==> x in ys
    ensures xs == ys
  {
    if xs == [] {
      NothingListed(xs, ys);
    } else {
      SameHead(xs, ys, order, major, minor);
      forall x
        ensures x in xs[1..] <==> x in ys[1..]
      {
        RestOfOrdered(xs, order, major, minor, x);
        RestOfOrdered(ys, order, major, minor, x);
      }
      TailsOrdered(xs, order);
      TailsOrdered(ys, order);
      hide StrictlyOrdered;
      hide Orders;
      OrderedListsAgree(xs[1..], ys[1..], order, major, minor);
      assert xs == [xs[0]] + xs[1..] && ys == [ys[0]] + ys[1..];
    }
  }

  lemma TailsOrdered<T(!new)>(xs: seq<T>, order: (T, T) -> int)
    requires StrictlyOrdered(xs, order) && xs != []
    ensures StrictlyOrdered(xs[1..], order)
  {
  }

  lemma SameHead<T(!new)>(xs: seq<T>, ys: seq<T>, order: (T, T) -> int, major: T -> int, minor: T -> int)
    requires Orders(order, major, minor) && StrictlyOrdered(xs, order) && StrictlyOrdered(ys, order)
    requires xs != [] && forall x :: x in xs <==> x in ys
    ensures ys != [] && xs[0] == ys[0]
  {
    FirstOf(xs);
    HeadIsLeast(ys, order, xs[0]);
    FirstOf(ys);
    HeadIsLeast(xs, order, ys[0]);
  }

  lemma FirstOf<T>(xs: seq<T>)
    requires xs != []
    ensures xs[0] in xs
  {
  }

  lemma HeadIsLeast<T(!new)>(xs: seq<T>, order: (T, T) -> int, x: T)
    requires StrictlyOrdered(xs, order) && x in xs
    ensures xs != [] && (x == xs[0] || order(xs[0], x) < 0)
  {
    var k :| 0 <= k < |xs| && xs[k] == x;
  }

  lemma NothingListed<T>(xs: seq<T>, ys: seq<T>)
    requires xs == [] && forall x :: x in xs <==> x in ys
    ensures ys == []
  {
    if ys != [] {
      FirstOf(ys);
    }
  }

  lemma RestOfOrdered<T(!new)>(xs: seq<T>, order: (T, T) -> int, major: T -> int, minor: T -> int, x: T)
    requires Orders(order, major, minor) && StrictlyOrdered(xs, order) && xs != []
    ensures x in xs[1..] <==> x in xs && x != xs[0]
  {
    assert xs == [xs[0]] + xs[1..];
    if x in xs[1..] {
      var k :| 0 <= k < |xs[1..]| && xs[1..][k] == x;
      assert order(xs[0], xs[k + 1]) < 0;
      assert order(xs[0], xs[0]) == 0;
    }
  }

  /** The map holds, under its key, exactly the versions of the list. */
  ghost predicate Holds<T(!new)>(versions: map<(int, int), T>, xs: seq<T>, major: T -> int, minor: T -> int) {
    && (forall x :: x in xs ==> (major(x), minor(x)) in versions && versions[(major(x), minor(x))] == x)
    && (forall k :: k in versions ==> versions[k] in xs && k == (major(versions[k]), minor(versions[k])))
  }

  lemma OverwriteHolds<T(!new)>(versions: map<(int, int), T>, xs: seq<T>, x: T, order: (T, T) -> int,
                                newer: (T, T) -> bool, major: T -> int, minor: T -> int)
    requires Orders(order, major, minor) && StrictlyOrdered(xs, order) && Holds(versions, xs, major, minor)
    ensures var k := (major(x), minor(x));
      Holds(if k !in versions || newer(x, versions[k]) then versions[k := x] else versions,
            Upsert(xs, x, order, newer), major, minor)
  {
    var k := (major(x), minor(x));
    var after := if k !in versions || newer(x, versions[k]) then versions[k := x] else versions;
    forall z | z in xs && order(x, z) == 0
      ensures k in versions && versions[k] == z
    {
    }
    forall y
      ensures y in Upsert(xs, x, order, newer) <==> (major(y), minor(y)) in after && after[(major(y), minor(y))] == y
    {
      UpsertMembers(xs, x, order, newer, major, minor, y);
    }
  }

  /** Keeps the latest visible version under each key in a map, then lists the versions in key order. */
  method LatestVersions<T(!new)>(xs: seq<T>, visible: T -> bool, order: (T, T) -> int, newer: (T, T) -> bool,
                                 major: T -> int, minor: T -> int) returns (latest: seq<T>)
    requires Orders(order, major, minor)
    ensures latest == Latest(xs, visible, order, newer)
  {
    var versions: map<(int, int), T> := map[];
    for n := 0 to |xs|
      invariant Holds(versions, Latest(xs[..n], visible, order, newer), major, minor)
    {
      assert xs[..n + 1][..n] == xs[..n];
      if visible(xs[n]) {
        var k := (major(xs[n]), minor(xs[n]));
        LatestOrdered(xs[..n], visible, order, newer, major, minor);
        OverwriteHolds(versions, Latest(xs[..n], visible, order, newer), xs[n], order, newer, major, minor);
        if k !in versions || newer(xs[n], versions[k]) {
          versions := versions[k := xs[n]];
        }
      }
    }
    assert xs[..|xs|] == xs;
    LatestOrdered(xs, visible, order, newer, major, minor);
    ghost var kept := Latest(xs, visible, order, newer);
    hide Latest;
    var keys := versions.Keys;
    latest := [];
    while keys != {}
      invariant keys <= versions.Keys && StrictlyOrdered(latest, order)
      invariant forall x :: x in latest <==> x in kept && (major(x), minor(x)) !in keys
      decreases keys
    {
      var k :| k in keys;
      var x := versions[k];
      UpsertOrdered(latest, x, order, newer, major, minor);
      forall y
        ensures y in Upsert(latest, x, order, newer) <==> y in kept && (major(y), minor(y)) !in keys - {k}
      {
        UpsertMembers(latest, x, order, newer, major, minor, y);
      }
      latest := Upsert(latest, x, order, newer);
      keys := keys - {k};
    }
    OrderedListsAgree(latest, kept, order, major, minor);
  }

  method SelectSnapshot(input: S.Snapshot, asOf: int) returns (r: S.Snapshot)
    ensures r == S.SelectSnapshot(input, asOf)
  {
    var bars := LatestVersions(input.bars, S.BarKnown(asOf), S.BarOrder(), S.NewerBar(),
                               (b: S.Bar) => b.instrument, (b: S.Bar) => b.sessionDate);
    var facts := LatestVersions(input.facts, S.FactKnown(asOf), S.FactOrder(), S.NewerFact(),
                                (f: S.Fact) => f.series, (f: S.Fact) => 0);
    var actions := LatestVersions(input.actions, S.ActionKnown(asOf), S.ActionOrder(), S.NewerAction(),
                                  (a: CorporateAction) => a.id, (a: CorporateAction) => 0);
    r := S.Snapshot(asOf, Sort(input.instruments, S.ById()), bars, facts, actions, input.calendar);
  }
}
