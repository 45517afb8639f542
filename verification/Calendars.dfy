/** Trading sessions and settlement days. */
module Calendars {
  import opened Outcomes
  import opened Domain

  datatype Session = Session(date: int, openAt: int, closeAt: int)

  const NO_SESSION := Session(0, 0, 0)

  /** A settlement date together with the instant at which it begins in New York. */
  datatype SettlementDay = SettlementDay(date: int, startsAt: int)

  datatype Calendar = Calendar(
    coverageStart: int, coverageEnd: int, sessions: seq<Session>, settlementDays: seq<SettlementDay>)
  {
    predicate Covers(t: int) {
      coverageStart <= t <= coverageEnd
    }
  }

  /** The earliest element opening after `after` among a prefix of the sessions. */
  function EarliestAfter(sessions: seq<Session>, after: int): Option<Session> {
    if sessions == [] then None
    else
      var best := EarliestAfter(sessions[..|sessions| - 1], after);
      var s := sessions[|sessions| - 1];
      if s.openAt > after && (best.None? || s.openAt < best.value.openAt) then Some(s) else best
  }

  function NextSession(c: Calendar, after: int): Result<Session> {
    if !c.Covers(after) then Err(DataStale)
    else
      match EarliestAfter(c.sessions, after)
      case None => Err(DataStale)
      case Some(s) => Ok(s)
  }

  function FirstDayAfter(days: seq<SettlementDay>, date: int): Option<SettlementDay> {
    if days == [] then None
    else
      var best := FirstDayAfter(days[..|days| - 1], date);
      var d := days[|days| - 1];
      if d.date > date && (best.None? || d.date < best.value.date) then Some(d) else best
  }

  function NextSettlement(c: Calendar, after: int): Result<SettlementDay> {
    if !c.Covers(after) then Err(DataStale)
    else
      match FirstDayAfter(c.settlementDays, DateOf(after))
      case None => Err(DataStale)
      case Some(d) => Ok(d)
  }

  function SettlementStart(c: Calendar, after: int): Result<int> {
    var d :- NextSettlement(c, after);
    Ok(d.startsAt)
  }

  function LatestClosed(sessions: seq<Session>, now: int): Session {
    if sessions == [] then NO_SESSION
    else
      var best := LatestClosed(sessions[..|sessions| - 1], now);
      var s := sessions[|sessions| - 1];
      if s.closeAt <= now && s.closeAt > best.closeAt then s else best
  }

  function LatestCompleted(c: Calendar, now: int): Result<Session> {
    if !c.Covers(now) then Err(DataStale)
    else
      var s := LatestClosed(c.sessions, now);
      if s.date == 0 then Err(DataStale) else Ok(s)
  }

  /** New York midnight of a date never precedes UTC midnight of it. */
  predicate SettlesAtMidnight(c: Calendar) {
    forall k :: 0 <= k < |c.settlementDays| ==> c.settlementDays[k].startsAt >= c.settlementDays[k].date * DAY
  }

  /** The session found is the earliest listed that opens after an instant; there is none exactly when no such session
      is listed. */
  lemma {:induction false} EarliestAfterIsEarliest(sessions: seq<Session>, after: int)
    ensures var r := EarliestAfter(sessions, after);
      && (r.Some? ==> r.value in sessions && r.value.openAt > after)
      && forall s :: s in sessions && s.openAt > after ==> r.Some? && r.value.openAt <= s.openAt
  {
    if sessions != [] {
      var init, last := sessions[..|sessions| - 1], sessions[|sessions| - 1];
      EarliestAfterIsEarliest(init, after);
      assert sessions == init + [last];
    }
  }

  lemma {:induction false} FirstDayAfterIsEarliest(days: seq<SettlementDay>, date: int)
    ensures FirstDayAfter(days, date).None? <==> forall d :: d in days ==> d.date <= date
    ensures var r := FirstDayAfter(days, date);
      r.Some? ==> r.value in days && r.value.date > date
                  && forall d :: d in days && d.date > date ==> r.value.date <= d.date
  {
    if days != [] {
      var init, last := days[..|days| - 1], days[|days| - 1];
      FirstDayAfterIsEarliest(init, date);
      assert days == init + [last];
      forall d
        ensures d in days <==> d in init || d == last
      {
      }
    }
  }

  /** Proceeds become usable strictly after the instant of the sale that produced them. */
  lemma SettlementIsLater(c: Calendar, after: int)
    requires SettlesAtMidnight(c)
    requires SettlementStart(c, after).Ok?
    ensures SettlementStart(c, after).value > after
  {
    FirstDayAfterIsEarliest(c.settlementDays, DateOf(after));
    var d := FirstDayAfter(c.settlementDays, DateOf(after)).value;
    assert d.startsAt >= d.date * DAY;
    assert d.date * DAY >= (DateOf(after) + 1) * DAY;
    assert after < (DateOf(after) + 1) * DAY;
  }
}
