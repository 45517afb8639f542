// What the restated curve of a successful run is worth: it never lacks cash or shares at any cutoff, and its last point
// is the value the run itself computed.
module Restating {
  import opened Outcomes
  import opened Domain
  import opened Calendars
  import opened Lists
  import opened Sums
  import opened Holdings
  import opened Reservations
  import opened Snapshots
  import opened Risk
  import opened Valuation
  import opened Replay
  import opened BookEvents
  import opened BookMeaning
  import opened Causality
  import opened Refold
  import opened Running

  // ---------- Every cutoff ----------

  lemma CausalFolds(b: Book, now: int, cutoff: int)
    requires Causal(b, now)
    ensures NeverNegative(b.account.initialCash, b.ledger)
    ensures forall id :: Sum(b.ledger, UpTo(cutoff, SharesIn(id))) >= 0
  {
    assert CoveredAt(b, cutoff);
    assert SoundOrders(b.account.id, b.orders);
    hide Causal;
    forall id
      ensures Sum(b.ledger, UpTo(cutoff, SharesIn(id))) >= 0
    {
      HeldAtCutoff(b.account.id, b.orders, cutoff, id);
    }
  }

  /** Entries are recorded out of economic order, and yet after every session of every successful replay, for every
      cutoff, folding the entries effective by then never takes a cash bucket or a holding below zero. The fold can
      only fail by overflow; otherwise each bucket is the sum of the entries effective by the cutoff, and so is the
      quantity of each instrument. */
  lemma RefoldAtEveryCutoff(input: ReplayInput, days: seq<Session>, n: nat, cutoff: int)
    requires n < |days| && WellFormedDays(days) && WellFormedSource(input.source)
    requires 0 < input.initialCash <= MAX_INITIAL_CASH
    requires RunSessions(input, days, n).Ok?
    ensures var b := RunSessions(input, days, n).value;
      && b.account.initialCash == input.initialCash
      && FoldsTo(input.initialCash, b.ledger, cutoff,
                 RefoldBalances(StartBalances(input.initialCash), b.ledger, cutoff))
      && NonNegativeAt(input.initialCash, b.ledger, cutoff)
      && RefoldHoldings(b.ledger, cutoff).Ok?
      && (forall id ::
            Held(RefoldHoldings(b.ledger, cutoff).value, id) == Sum(b.ledger, UpTo(cutoff, SharesIn(id))) >= 0)
  {
    RunKeeps(input, days, n);
    var b := RunSessions(input, days, n).value;
    hide RunSessions;
    CausalFolds(b, DecisionTime(days[n]), cutoff);
    hide AtClose;
    RefoldNeverLacksCash(input.initialCash, b.ledger, cutoff);
    RefoldedHoldings(b.ledger, cutoff);
    assert b.ledger[..|b.ledger|] == b.ledger;
    assert NonNegativeAt(input.initialCash, b.ledger[..|b.ledger|], cutoff);
  }

  // ---------- Once everything is effective ----------

  lemma {:induction false} RefoldOfAll(start: Balances, ledger: seq<LedgerEntry>, cutoff: int)
    requires forall i :: 0 <= i < |ledger| ==> ledger[i].effectiveAt <= cutoff
    ensures RefoldBalances(start, ledger, cutoff) == FoldEntries(start, ledger)
  {
    if ledger != [] {
      RefoldOfAll(start, ledger[..|ledger| - 1], cutoff);
    }
  }

  /** At a cutoff by which everything is effective the refold from scratch is exactly the incremental book. */
  lemma RefoldIsTheBook(b: Book, now: int, cutoff: int)
    requires Causal(b, now) && now <= cutoff
    ensures RefoldBalances(StartBalances(b.account.initialCash), b.ledger, cutoff) == Ok(b.account.balances)
    ensures RefoldHoldings(b.ledger, cutoff).Ok? && Distinct(RefoldHoldings(b.ledger, cutoff).value)
    ensures forall n :: 0 <= n < |RefoldHoldings(b.ledger, cutoff).value| ==>
      RefoldHoldings(b.ledger, cutoff).value[n].quantity > 0
    ensures forall id :: Held(RefoldHoldings(b.ledger, cutoff).value, id) == Held(b.positions, id)
  {
    CausalFolds(b, now, cutoff);
    RefoldedHoldings(b.ledger, cutoff);
    assert Balanced(b) && Timed(b, now);
    hide Causal;
    RefoldOfAll(StartBalances(b.account.initialCash), b.ledger, cutoff);
    FoldIsTheBook(b, cutoff);
  }

  // ---------- The last point ----------

  /** The value computed at the end of a session, at the closing prices known then. */
  function ClosingNav(b: Book, source: Snapshot, session: Session): Result<int> {
    ComputeNAV(b.account, b.positions, SelectSnapshot(source, DecisionTime(session)), map[])
  }

  lemma {:induction false} SameCloses(bars: seq<Bar>, asOf: int, date: int)
    requires forall b :: b in bars ==> b.availableAt <= asOf
    ensures ClosingPrices(bars, asOf, date) == SessionCloses(bars, date)
  {
    if bars != [] {
      SameCloses(bars[..|bars| - 1], asOf, date);
    }
  }

  lemma {:induction false} ClosesArePositive(bars: seq<Bar>, date: int)
    ensures forall id :: id in SessionCloses(bars, date) ==> SessionCloses(bars, date)[id] > 0
  {
    if bars != [] {
      ClosesArePositive(bars[..|bars| - 1], date);
    }
  }

  lemma {:induction false} LatestClosedIsLatest(sessions: seq<Session>, now: int, s: Session)
    requires s in sessions && s.closeAt <= now
    ensures s.closeAt <= LatestClosed(sessions, now).closeAt || s.closeAt <= 0
  {
    if s in sessions[..|sessions| - 1] {
      LatestClosedIsLatest(sessions[..|sessions| - 1], now, s);
    }
    assert LatestClosed(sessions[..|sessions| - 1], now).closeAt <= LatestClosed(sessions, now).closeAt;
  }

  predicate OpenBeforeClose(c: Calendar) {
    forall k :: 0 <= k < |c.sessions| ==> c.sessions[k].openAt <= c.sessions[k].closeAt
  }

  /** When the last session is the latest one completed by its decision time, nothing later is known of it. */
  lemma LastKnown(source: Snapshot, last: Session)
    requires OpenBeforeClose(source.calendar) && last.closeAt > 0
    requires LatestCompleted(source.calendar, DecisionTime(last)) == Ok(last)
    requires NextSession(source.calendar, last.closeAt).Ok?
    ensures KnownAt(source, last, DecisionTime(last)) == Ok(SelectSnapshot(source, DecisionTime(last)))
  {
    hide SelectSnapshot;
    var next := NextSession(source.calendar, last.closeAt).value;
    EarliestAfterIsEarliest(source.calendar.sessions, last.closeAt);
    if next.closeAt <= DecisionTime(last) {
      LatestClosedIsLatest(source.calendar.sessions, DecisionTime(last), next);
    }
  }

  lemma OverridesChangeNothing(prices: map<int, int>)
    ensures prices + prices == prices && prices + map[] == prices
  {
  }

  lemma KnownBars(source: Snapshot, asOf: int)
    ensures forall b :: b in SelectSnapshot(source, asOf).bars ==> b.availableAt <= asOf
  {
    SelectedBars(source, asOf);
    hide SelectSnapshot;
  }

  /** The closing prices of the last session are the quotes of its decision time. */
  lemma LastQuotes(source: Snapshot, last: Session)
    requires LatestCompleted(source.calendar, DecisionTime(last)) == Ok(last)
    ensures var known := SelectSnapshot(source, DecisionTime(last));
      var prices := SessionCloses(known.bars, last.date);
      && known.asOf == DecisionTime(last)
      && Quotes(known, map[]) == Ok(prices) && Quotes(known, prices) == Ok(prices)
  {
    hide Latest;
    hide Sort;
    hide LatestCompleted;
    hide ClosingPrices;
    hide SessionCloses;
    var known := SelectSnapshot(source, DecisionTime(last));
    KnownBars(source, DecisionTime(last));
    assert known.calendar == source.calendar && known.asOf == DecisionTime(last);
    hide SelectSnapshot;
    SameCloses(known.bars, known.asOf, last.date);
    ClosesArePositive(known.bars, last.date);
    OverridesChangeNothing(SessionCloses(known.bars, last.date));
  }

  /** With the balances and the holdings of the book refolded, a session is restated at its value in the book. */
  lemma RefoldedNav(b: Book, source: Snapshot, last: Session, rows: seq<Position>, prices: map<int, int>)
    requires SoundBalances(b.account.balances) && Distinct(b.positions) && Distinct(rows)
    requires forall id :: Held(rows, id) == Held(b.positions, id)
    requires forall n :: 0 <= n < |rows| ==> rows[n].quantity > 0
    requires var known := SelectSnapshot(source, DecisionTime(last));
      Quotes(known, map[]) == Ok(prices) && Quotes(known, prices) == Ok(prices)
    requires ClosingNav(b, source, last).Ok?
    ensures forall n :: 0 <= n < |rows| ==> rows[n].instrument in prices
    ensures ComputeNAV(b.account, rows, SelectSnapshot(source, DecisionTime(last)), prices)
         == ClosingNav(b, source, last)
  {
    hide SelectSnapshot;
    hide Quotes;
    hide Held;
    hide Distinct;
    var known := SelectSnapshot(source, DecisionTime(last));
    NavDependsOnHoldings(b.account, b.positions, rows, known, map[]);
    HeldIsPriced(b.account, rows, known, prices);
  }

  /** Restating a session at its own decision time gives the value computed in the run. */
  lemma PointIsClosingNav(b: Book, source: Snapshot, last: Session)
    requires Causal(b, DecisionTime(last)) && last.closeAt > 0 && OpenBeforeClose(source.calendar)
    requires LatestCompleted(source.calendar, DecisionTime(last)) == Ok(last)
    requires NextSession(source.calendar, last.closeAt).Ok? && ClosingNav(b, source, last).Ok?
    ensures EconomicPoint(b, source, last, DecisionTime(last)) == ClosingNav(b, source, last)
  {
    var cutoff := DecisionTime(last);
    RefoldIsTheBook(b, cutoff, cutoff);
    SoundCash(b);
    assert Distinct(b.positions);
    hide Causal;
    hide SelectSnapshot;
    hide RefoldBalances;
    hide RefoldHoldings;
    hide KnownAt;
    hide Quotes;
    hide SessionCloses;
    hide ComputeNAV;
    hide ClosingNav;
    hide Distinct;
    hide NextSession;
    hide LatestCompleted;
    LastKnown(source, last);
    LastQuotes(source, last);
    var known := SelectSnapshot(source, cutoff);
    var rows, prices := RefoldHoldings(b.ledger, cutoff).value, SessionCloses(known.bars, last.date);
    RefoldedNav(b, source, last, rows, prices);
    assert b.account.(balances := b.account.balances) == b.account && known.(asOf := cutoff) == known;
  }

  /** A valued list has a price for every name it holds. */
  lemma HeldIsPriced(account: Account, rows: seq<Position>, s: Snapshot, prices: map<int, int>)
    requires SoundBalances(account.balances) && Quotes(s, map[]) == Ok(prices)
    requires ComputeNAV(account, rows, s, map[]).Ok?
    ensures forall n :: 0 <= n < |rows| && rows[n].quantity > 0 ==> rows[n].instrument in prices
  {
    hide Quotes;
    var cash := TotalCash(account.balances).value;
    AddHoldingsIsSum(cash, rows, prices);
    hide Sum;
    forall n | 0 <= n < |rows| && rows[n].quantity > 0
      ensures rows[n].instrument in prices
    {
      assert PricedRow(rows[n], prices);
    }
  }

  lemma RunHasNav(input: ReplayInput, days: seq<Session>, n: nat)
    requires 0 < n < |days| && RunSessions(input, days, n).Ok?
    ensures ClosingNav(RunSessions(input, days, n).value, input.source, days[n]).Ok?
    ensures ClosingNav(RunSessions(input, days, n).value, input.source, days[n]).value
         <= RunSessions(input, days, n).value.peak
  {
    hide Reconcile;
    hide Execute;
    hide OpenSession;
    hide SelectSnapshot;
    hide ComputeNAV;
  }

  /** The last restated value equals the value computed during the run, although the curve is folded from scratch. */
  lemma LastPointAgrees(input: ReplayInput, days: seq<Session>)
    requires |days| > 1 && WellFormedDays(days) && WellFormedSource(input.source)
    requires 0 < input.initialCash <= MAX_INITIAL_CASH
    requires var last := days[|days| - 1];
      && last.closeAt > 0 && OpenBeforeClose(input.source.calendar)
      && LatestCompleted(input.source.calendar, DecisionTime(last)) == Ok(last)
      && NextSession(input.source.calendar, last.closeAt).Ok?
    requires RunSessions(input, days, |days| - 1).Ok?
    ensures var b, last := RunSessions(input, days, |days| - 1).value, days[|days| - 1];
      && ClosingNav(b, input.source, last).Ok?
      && EconomicPoint(b, input.source, last, DecisionTime(last)) == ClosingNav(b, input.source, last)
  {
    RunKeeps(input, days, |days| - 1);
    RunHasNav(input, days, |days| - 1);
    hide RunSessions;
    hide ClosingNav;
    hide EconomicPoint;
    hide Causal;
    PointIsClosingNav(RunSessions(input, days, |days| - 1).value, input.source, days[|days| - 1]);
  }

  // ---------- The whole curve ----------

  /** Overflow and missing market data: the only ways a restated curve can fail. */
  predicate DataError(e: Error) {
    e == NumericOverflow || e == DataStale
  }

  lemma {:induction false} HoldingsErrors(total: int, rows: seq<Position>, prices: map<int, int>)
    requires forall id :: id in prices ==> prices[id] > 0
    requires forall n :: 0 <= n < |rows| ==> rows[n].quantity > 0
    ensures var r := AddHoldings(total, rows, prices); r.Err? ==> DataError(r.error)
  {
    if rows != [] {
      HoldingsErrors(total, rows[..|rows| - 1], prices);
    }
  }

  lemma NavErrors(account: Account, rows: seq<Position>, s: Snapshot, prices: map<int, int>)
    requires forall n :: 0 <= n < |rows| ==> rows[n].quantity > 0
    requires forall id :: id in prices ==> prices[id] > 0
    ensures var r := ComputeNAV(account, rows, s, prices); r.Err? ==> DataError(r.error)
  {
    hide ClosingPrices;
    if Quotes(s, prices).Ok? && TotalCash(account.balances).Ok? {
      QuotesArePositive(s, prices);
      HoldingsErrors(TotalCash(account.balances).value, rows, Quotes(s, prices).value);
    }
  }

  lemma KnownErrors(source: Snapshot, session: Session, finalAt: int)
    ensures KnownAt(source, session, finalAt).Err? ==> KnownAt(source, session, finalAt).error == DataStale
  {
    hide SelectSnapshot;
  }

  lemma PointErrors(b: Book, now: int, source: Snapshot, session: Session, finalAt: int)
    requires Causal(b, now)
    ensures var r := EconomicPoint(b, source, session, finalAt); r.Err? ==> DataError(r.error)
  {
    var cutoff := DecisionTime(session);
    CausalFolds(b, now, cutoff);
    hide Causal;
    RefoldNeverLacksCash(b.account.initialCash, b.ledger, cutoff);
    RefoldedHoldings(b.ledger, cutoff);
    hide Sum;
    hide RefoldBalances;
    hide RefoldHoldings;
    hide NeverNegative;
    hide SessionCloses;
    hide KnownAt;
    hide ComputeNAV;
    hide Distinct;
    hide FoldedAmount;
    KnownErrors(source, session, finalAt);
    var known, balances := KnownAt(source, session, finalAt),
                           RefoldBalances(StartBalances(b.account.initialCash), b.ledger, cutoff);
    if known.Ok? && balances.Ok? {
      var prices := SessionCloses(known.value.bars, session.date);
      ClosesArePositive(known.value.bars, session.date);
      NavErrors(b.account.(balances := balances.value), RefoldHoldings(b.ledger, cutoff).value,
                known.value.(asOf := cutoff), prices);
    }
  }

  lemma {:induction false} CurveErrors(b: Book, now: int, source: Snapshot, sessions: seq<Session>, finalAt: int)
    requires Causal(b, now)
    ensures var r := EconomicCurve(b, source, sessions, finalAt); r.Err? ==> DataError(r.error)
  {
    hide EconomicPoint;
    if sessions != [] {
      CurveErrors(b, now, source, sessions[..|sessions| - 1], finalAt);
      hide Causal;
      PointErrors(b, now, source, sessions[|sessions| - 1], finalAt);
    }
  }

  /** The restated curve of a successful run is refused only for overflow or missing market data: never for want of
      cash and never for a negative holding. */
  lemma CurveOfRun(input: ReplayInput, days: seq<Session>)
    requires |days| > 1 && WellFormedDays(days) && WellFormedSource(input.source)
    requires 0 < input.initialCash <= MAX_INITIAL_CASH
    requires RunSessions(input, days, |days| - 1).Ok?
    ensures var b, last := RunSessions(input, days, |days| - 1).value, days[|days| - 1];
      var r := EconomicCurve(b, input.source, days[1..], DecisionTime(last));
      r.Err? ==> DataError(r.error)
  {
    RunKeeps(input, days, |days| - 1);
    hide RunSessions;
    hide EconomicCurve;
    hide Causal;
    CurveErrors(RunSessions(input, days, |days| - 1).value, DecisionTime(days[|days| - 1]), input.source, days[1..],
                DecisionTime(days[|days| - 1]));
  }
}
