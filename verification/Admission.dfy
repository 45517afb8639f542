// Every replay that is admitted over a spaced calendar: its days follow one another, so what holds of whole runs holds
// of it, and its restated curve ends at the value it computed while it ran.
module Admission {
  import opened Outcomes
  import opened Lists
  import opened Calendars
  import opened Snapshots
  import opened Replay
  import opened Running
  import opened Refold
  import opened Restating

  /** One session after another: decided before the other opens, on an earlier date. */
  predicate Before(s: Session, t: Session) {
    DecisionTime(s) < t.openAt && s.date < t.date
  }

  predicate Proper(s: Session) {
    0 < s.openAt <= s.closeAt
  }

  /** The sessions a calendar lists, in whatever order, do not overlap, the half hour before a decision included. */
  predicate Spaced(sessions: seq<Session>) {
    && (forall s :: s in sessions ==> Proper(s))
    && (forall i, j :: 0 <= i < j < |sessions| ==> Before(sessions[i], sessions[j]) || Before(sessions[j], sessions[i]))
  }

  predicate Chain(days: seq<Session>) {
    && (forall s :: s in days ==> Proper(s))
    && (forall i, j :: 0 <= i < j < |days| ==> Before(days[i], days[j]))
  }

  // ---------- Days in order ----------

  lemma {:induction false} InsertKeepsChain(x: Session, days: seq<Session>)
    requires Chain(days) && Proper(x) && forall s :: s in days ==> Before(x, s) || Before(s, x)
    ensures Chain(Insert(x, days, ByOpen()))
  {
    if days == [] {
    } else if ByOpen()(x, days[0]) {
      assert days[0] in days;
      assert Before(x, days[0]);
    } else {
      var rest := Insert(x, days[1..], ByOpen());
      assert days[0] in days;
      assert Before(days[0], x);
      InsertKeepsChain(x, days[1..]);
      forall k | 0 <= k < |rest|
        ensures Before(days[0], rest[k])
      {
        InsertElements(x, days[1..], ByOpen(), rest[k]);
      }
    }
  }

  /** Spaced sessions sorted by opening follow one another. */
  lemma {:induction false} SortedIsChain(sessions: seq<Session>)
    requires Spaced(sessions)
    ensures Chain(Sort(sessions, ByOpen()))
  {
    if sessions != [] {
      var init, last := sessions[..|sessions| - 1], sessions[|sessions| - 1];
      SortedIsChain(init);
      forall s | s in Sort(init, ByOpen())
        ensures Before(last, s) || Before(s, last)
      {
        SortKeepsElements(init, ByOpen(), s);
        var i :| 0 <= i < |init| && init[i] == s;
        assert sessions[i] == s;
      }
      InsertKeepsChain(last, Sort(init, ByOpen()));
    }
  }

  lemma {:induction false} FilteredIsChain(days: seq<Session>, keep: Session -> bool)
    requires Chain(days)
    ensures Chain(Filter(days, keep))
  {
    if days != [] {
      var init, last := days[..|days| - 1], days[|days| - 1];
      FilteredIsChain(init, keep);
      forall s | s in Filter(init, keep)
        ensures Before(s, last)
      {
        FilterKeeps(init, keep, s);
        var i :| 0 <= i < |init| && init[i] == s;
        assert days[i] == s;
      }
    }
  }

  lemma {:induction false} LastBeforeIsListed(sessions: seq<Session>, date: int)
    requires LastBefore(sessions, date) != NO_SESSION
    ensures LastBefore(sessions, date) in sessions && LastBefore(sessions, date).date < date
  {
    if sessions != [] && sessions[|sessions| - 1].date >= date {
      LastBeforeIsListed(sessions[..|sessions| - 1], date);
    }
  }

  // ---------- Admitted replays ----------

  /** The days an admitted replay runs over follow one another. */
  lemma AdmittedDays(input: ReplayInput)
    requires Spaced(input.source.calendar.sessions) && Admit(input).Ok?
    ensures var days := Admit(input).value;
      && |days| > MIN_SESSIONS && Chain(days) && WellFormedDays(days)
      && 0 < input.initialCash <= MAX_INITIAL_CASH
      && (forall s :: s in days ==> s in input.source.calendar.sessions)
  {
    hide Warm;
    hide Sort;
    hide Filter;
    hide LastBefore;
    hide Before;
    var sessions := input.source.calendar.sessions;
    var all := Sort(sessions, ByOpen());
    var first, rest := LastBefore(all, input.firstDate), Filter(all, InRange(input));
    SortedIsChain(sessions);
    FilteredIsChain(all, InRange(input));
    assert Admit(input).value == [first] + rest && first != NO_SESSION;
    LastBeforeIsListed(all, input.firstDate);
    forall s | s in [first] + rest
      ensures s in all && s in sessions
    {
      FilterKeeps(all, InRange(input), s);
      SortKeepsElements(sessions, ByOpen(), s);
    }
    FirstDayChains(all, input, first, rest);
    ChainIsWellFormed([first] + rest);
  }

  /** A listed session dated before the range comes before every session of the range. */
  lemma FirstDayChains(all: seq<Session>, input: ReplayInput, first: Session, rest: seq<Session>)
    requires Chain(all) && Chain(rest) && first in all && first.date < input.firstDate
    requires rest == Filter(all, InRange(input))
    ensures Chain([first] + rest)
  {
    forall s | s in rest
      ensures Before(first, s)
    {
      FilterKeeps(all, InRange(input), s);
      var i, j :| 0 <= i < |all| && all[i] == first && 0 <= j < |all| && all[j] == s;
    }
  }

  lemma ChainIsWellFormed(days: seq<Session>)
    requires Chain(days)
    ensures WellFormedDays(days)
  {
    forall n | 0 <= n < |days|
      ensures days[n].openAt <= days[n].closeAt
    {
      assert Proper(days[n]) by { assert days[n] in days; }
    }
    assert forall n :: 0 < n < |days| ==> Before(days[n - 1], days[n]);
  }

  // ---------- The end of the curve ----------

  lemma {:induction false} LatestClosedIsListed(sessions: seq<Session>, now: int)
    ensures var r := LatestClosed(sessions, now); r == NO_SESSION || (r in sessions && r.closeAt <= now)
  {
    if sessions != [] {
      LatestClosedIsListed(sessions[..|sessions| - 1], now);
    }
  }

  /** By the time a session is decided it is the latest one closed. */
  lemma DecidedIsLatest(sessions: seq<Session>, s: Session)
    requires Spaced(sessions) && s in sessions
    ensures LatestClosed(sessions, DecisionTime(s)) == s
  {
    var r := LatestClosed(sessions, DecisionTime(s));
    assert Proper(s);
    LatestClosedIsLatest(sessions, DecisionTime(s), s);
    LatestClosedIsListed(sessions, DecisionTime(s));
    var i, j :| 0 <= i < |sessions| && sessions[i] == s && 0 <= j < |sessions| && sessions[j] == r;
    assert Proper(sessions[j]);
  }

  lemma CurveEndsAtPoint(b: Book, source: Snapshot, sessions: seq<Session>, finalAt: int)
    requires sessions != [] && EconomicCurve(b, source, sessions, finalAt).Ok?
    ensures var curve, last := EconomicCurve(b, source, sessions, finalAt).value, sessions[|sessions| - 1];
      curve != [] && EconomicPoint(b, source, last, finalAt) == Ok(curve[|curve| - 1])
  {
    hide EconomicPoint;
  }

  /** A session can be restated only when the calendar knows the next one, and valued only when it is the latest
      closed. */
  lemma DataWasThere(b: Book, source: Snapshot, s: Session, finalAt: int)
    requires EconomicPoint(b, source, s, finalAt).Ok? && ClosingNav(b, source, s).Ok?
    ensures NextSession(source.calendar, s.closeAt).Ok? && LatestCompleted(source.calendar, DecisionTime(s)).Ok?
  {
    hide NextSession;
    hide LatestCompleted;
    hide RefoldBalances;
    hide RefoldHoldings;
    hide SessionCloses;
    hide ClosingPrices;
    hide Latest;
    hide Sort;
  }

  /** The last day of a run is restated at the value computed when it ended. */
  lemma LastDayAgrees(input: ReplayInput, days: seq<Session>, b: Book, last: Session, point: int)
    requires |days| > 1 && WellFormedDays(days) && WellFormedSource(input.source)
    requires 0 < input.initialCash <= MAX_INITIAL_CASH
    requires Spaced(input.source.calendar.sessions) && last == days[|days| - 1]
    requires last in input.source.calendar.sessions
    requires RunSessions(input, days, |days| - 1) == Ok(b)
    requires EconomicPoint(b, input.source, last, DecisionTime(last)) == Ok(point)
    ensures ClosingNav(b, input.source, last) == Ok(point)
  {
    RunHasNav(input, days, |days| - 1);
    hide RunSessions;
    hide EconomicPoint;
    hide ClosingNav;
    hide WellFormedDays;
    hide WellFormedSource;
    hide Spaced;
    DataWasThere(b, input.source, last, DecisionTime(last));
    DecidedIsLatest(input.source.calendar.sessions, last);
    SpacedOpens(input.source.calendar, last);
    LastPointAgrees(input, days);
  }

  /** Of every replay over a spaced calendar that succeeds, the last value of the restated curve, folded from scratch,
      is the value the run itself computed when it ended. */
  lemma CurveEndsAtClosingNav(input: ReplayInput, days: seq<Session>, b: Book, curve: seq<int>)
    requires Spaced(input.source.calendar.sessions) && WellFormedSource(input.source)
    requires Admit(input) == Ok(days) && |days| > 1 && RunSessions(input, days, |days| - 1) == Ok(b)
    requires EconomicCurve(b, input.source, days[1..], DecisionTime(days[|days| - 1])) == Ok(curve)
    ensures curve != [] && ClosingNav(b, input.source, days[|days| - 1]) == Ok(curve[|curve| - 1])
  {
    hide *;
    AdmittedDays(input);
    CurveEndsAtPoint(b, input.source, days[1..], DecisionTime(days[|days| - 1]));
    LastDayAgrees(input, days, b, days[|days| - 1], curve[|curve| - 1]);
  }

  lemma SpacedOpens(c: Calendar, s: Session)
    requires Spaced(c.sessions) && s in c.sessions
    ensures OpenBeforeClose(c) && s.closeAt > 0
  {
    forall k | 0 <= k < |c.sessions|
      ensures c.sessions[k].openAt <= c.sessions[k].closeAt
    {
      assert Proper(c.sessions[k]) by { assert c.sessions[k] in c.sessions; }
    }
    assert Proper(s);
  }
}
