// Market data for a replay that a shared order number stops: one name with one bar a day, whose price jumps once.
module StoppedData {
  import opened Outcomes
  import opened Domain
  import opened Calendars
  import opened Lists
  import opened Sums
  import opened Snapshots
  import opened Execution
  import opened Replay

  const NAME := 7
  const DOLLAR := 1_000_000
  const HOUR := 2 * HALF_HOUR
  const FIRST_DAY := 221
  const LAST_DAY := 240
  const HISTORY: nat := 222
  const STOCK := Instrument(NAME, true, true, 1)

  // ---------- Days ----------

  function Day(d: int): Session {
    Session(d, d * DAY + 14 * HOUR, d * DAY + 21 * HOUR)
  }

  /** Sessions from the day before the replay to two days after it. */
  function Days(n: nat): seq<Session> {
    seq(n, k requires 0 <= k < n => Day(FIRST_DAY - 1 + k))
  }

  const SESSIONS: nat := 23
  const CALENDAR := Calendar(0, 1000 * DAY, Days(SESSIONS), [SettlementDay(300, 300 * DAY)])

  lemma DayOf(d: int, t: int)
    requires d * DAY <= t < (d + 1) * DAY
    ensures DateOf(t) == d
  {
    InDay(d, t - d * DAY);
  }

  lemma InDay(d: int, rest: int)
    requires 0 <= rest < DAY
    ensures (d * DAY + rest) / DAY == d
  {
  }

  lemma {:induction false} LatestDay(n: nat, d: int, now: int)
    requires Day(d).closeAt <= now < Day(d + 1).closeAt && FIRST_DAY - 1 <= d
    ensures LatestClosed(Days(n), now)
         == if n == 0 then NO_SESSION else if FIRST_DAY - 2 + n <= d then Day(FIRST_DAY - 2 + n) else Day(d)
  {
    if n > 0 {
      LatestDay(n - 1, d, now);
      assert Days(n)[..n - 1] == Days(n - 1) && Days(n)[n - 1] == Day(FIRST_DAY - 2 + n);
    }
  }

  lemma {:induction false} NextDay(n: nat, d: int, now: int)
    requires Day(d).openAt <= now < Day(d + 1).openAt && FIRST_DAY - 1 <= d
    ensures EarliestAfter(Days(n), now) == if FIRST_DAY - 2 + n <= d then None else Some(Day(d + 1))
  {
    if n > 0 {
      NextDay(n - 1, d, now);
      assert Days(n)[..n - 1] == Days(n - 1) && Days(n)[n - 1] == Day(FIRST_DAY - 2 + n);
    }
  }

  /** The latest day completed, between two closes. */
  lemma Completed(d: int, now: int)
    requires FIRST_DAY - 1 <= d <= FIRST_DAY + 10 && Day(d).closeAt <= now < Day(d + 1).closeAt
    ensures LatestCompleted(CALENDAR, now) == Ok(Day(d))
  {
    LatestDay(SESSIONS, d, now);
  }

  lemma Following(d: int, now: int)
    requires FIRST_DAY - 1 <= d <= FIRST_DAY + 10 && Day(d).openAt <= now < Day(d + 1).openAt
    ensures NextSession(CALENDAR, now) == Ok(Day(d + 1))
  {
    NextDay(SESSIONS, d, now);
  }

  lemma Settles(d: int)
    requires 0 <= d <= FIRST_DAY + 10
    ensures SettlementStart(CALENDAR, Day(d).openAt) == Ok(300 * DAY)
  {
    DayOf(d, Day(d).openAt);
    var days := CALENDAR.settlementDays;
    assert days == [SettlementDay(300, 300 * DAY)] && days[..0] == [];
    assert FirstDayAfter(days[..0], d) == None;
    assert FirstDayAfter(days, d) == Some(days[0]);
  }

  // ---------- Bars ----------

  function Open(d: int): int {
    if d < FIRST_DAY then DOLLAR else if d == FIRST_DAY then 990_000 else 10 * DOLLAR
  }

  function Close(d: int): int {
    if d < FIRST_DAY then DOLLAR else 10 * DOLLAR
  }

  function BarOf(d: int): Bar {
    Bar(NAME, d, Day(d).closeAt, Day(d).closeAt, Open(d), Open(d), Open(d), Close(d), 1_000_000, false)
  }

  function Bars(n: nat): seq<Bar> {
    seq(n, k requires 0 <= k < n => BarOf(k + 1))
  }

  lemma NextBar(n: nat)
    requires n > 0
    ensures Bars(n) == Bars(n - 1) + [BarOf(n)] && Bars(n)[..n - 1] == Bars(n - 1)
  {
  }

  function Data(asOf: int, n: nat): Snapshot {
    Snapshot(asOf, [STOCK], Bars(n), [], [], CALENDAR)
  }

  const SOURCE := Data(0, HISTORY)

  lemma {:induction false} UpsertLast<T>(xs: seq<T>, x: T, order: (T, T) -> int, newer: (T, T) -> bool)
    requires forall k :: 0 <= k < |xs| ==> order(x, xs[k]) > 0
    ensures Upsert(xs, x, order, newer) == xs + [x]
  {
    if xs != [] {
      UpsertLast(xs[1..], x, order, newer);
    }
  }

  lemma {:induction false} KnownBars(n: nat, d: nat, asOf: int)
    requires Day(d).closeAt <= asOf < Day(d + 1).closeAt
    ensures Latest(Bars(n), BarKnown(asOf), BarOrder(), NewerBar()) == Bars(if n <= d then n else d)
  {
    if n > 0 {
      KnownBars(n - 1, d, asOf);
      NextBar(n);
      hide Upsert;
      if n <= d {
        UpsertLast(Bars(n - 1), BarOf(n), BarOrder(), NewerBar());
      }
    }
  }

  /** What is known between two closes: the bars of the days before. */
  lemma Known(d: nat, asOf: int)
    requires d <= HISTORY && Day(d).closeAt <= asOf < Day(d + 1).closeAt
    ensures SelectSnapshot(SOURCE, asOf) == Data(asOf, d)
  {
    KnownBars(HISTORY, d, asOf);
    assert [STOCK][..0] == [];
    assert Sort([STOCK][..0], ById()) == [];
  }

  lemma {:induction false} OlderBars(n: nat, asOf: int, date: int)
    requires n < date
    ensures ClosingPrices(Bars(n), asOf, date) == map[] && BarsOn(Bars(n), date) == map[]
    ensures OpeningPrices(Bars(n), date) == map[]
  {
    if n > 0 {
      OlderBars(n - 1, asOf, date);
      NextBar(n);
    }
  }

  /** The only bar of a day is the last one known at its close. */
  lemma LastBar(d: nat, asOf: int)
    requires d > 0 && Day(d).closeAt <= asOf
    ensures ClosingPrices(Bars(d), asOf, d) == map[NAME := Close(d)]
    ensures BarsOn(Bars(d), d) == map[NAME := BarOf(d)] && OpeningPrices(Bars(d), d) == map[NAME := Open(d)]
  {
    OlderBars(d - 1, asOf, d);
    NextBar(d);
  }

  lemma Catalog()
    ensures InstrumentsById([STOCK]) == map[NAME := STOCK]
  {
    assert [STOCK][..0] == [];
  }

  /** At the decision of a day the name is quoted at its close; before the next opening, at the prices given. */
  lemma Quoted(d: int, asOf: int, overrides: map<int, int>)
    requires FIRST_DAY - 1 <= d <= HISTORY && Day(d).closeAt <= asOf < Day(d + 1).closeAt
    requires forall id :: id in overrides ==> overrides[id] > 0
    ensures Quotes(Data(asOf, d), overrides) == Ok(map[NAME := Close(d)] + overrides)
  {
    Completed(d, asOf);
    LastBar(d, asOf);
  }

  // ---------- Capacity ----------

  lemma {:induction false} FilterAll<T>(xs: seq<T>, keep: T -> bool)
    requires forall k :: 0 <= k < |xs| ==> keep(xs[k])
    ensures Filter(xs, keep) == xs
  {
    if xs != [] {
      FilterAll(xs[..|xs| - 1], keep);
    }
  }

  lemma {:induction false} InsertLast<T>(x: T, xs: seq<T>, less: (T, T) -> bool)
    requires forall k :: 0 <= k < |xs| ==> !less(x, xs[k])
    ensures Insert(x, xs, less) == xs + [x]
  {
    if xs != [] {
      InsertLast(x, xs[1..], less);
    }
  }

  lemma {:induction false} SortSorted<T>(xs: seq<T>, less: (T, T) -> bool)
    requires forall i, j :: 0 <= i < j < |xs| ==> !less(xs[j], xs[i])
    ensures Sort(xs, less) == xs
  {
    if xs != [] {
      SortSorted(xs[..|xs| - 1], less);
      InsertLast(xs[|xs| - 1], xs[..|xs| - 1], less);
    }
  }

  lemma {:induction false} SumOfSame<T>(xs: seq<T>, f: T -> int, c: int)
    requires forall k :: 0 <= k < |xs| ==> f(xs[k]) == c
    ensures Sum(xs, f) == c * |xs|
  {
    if xs != [] {
      SumOfSame(xs[..|xs| - 1], f, c);
    }
  }

  lemma AllCompleted(d: nat)
    requires 20 <= d <= HISTORY
    ensures CompletedBars(Bars(d), Day(d + 1).openAt) == Bars(d)
  {
    var bars, before := Bars(d), Day(d + 1).openAt;
    DayOf(d + 1, before);
    FilterAll(bars, CompletedBefore(before));
    SortSorted(bars, ByDate());
    hide Filter;
    hide Sort;
  }

  lemma LatestTwenty(d: nat)
    requires 20 <= d <= HISTORY
    ensures var recent := Bars(d)[d - 20..]; CleanVolumes(recent) && Sum(recent, Volume()) == 20_000_000
  {
    var recent := Bars(d)[d - 20..];
    assert forall k :: 0 <= k < 20 ==> recent[k] == BarOf(d - 19 + k);
    SumOfSame(recent, Volume(), 1_000_000);
    hide Sum;
  }

  /** Twenty days of a million shares: an order may take ten thousand. */
  lemma Capacity(d: nat)
    requires 20 <= d <= HISTORY
    ensures PreviousVolumeCapacity(Bars(d), Day(d + 1).openAt) == Ok(10_000)
  {
    hide CompletedBars;
    hide CleanVolumes;
    hide Sum;
    AllCompleted(d);
    LatestTwenty(d);
  }
}
