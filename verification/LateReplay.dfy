// Replays whose fills fall out of step: the opening bar of a buy is published late, a split takes effect in between,
// and the buy is then filled for shares as they were before the split. The condition is exact over both instants.
module LateReplay {
  import opened Outcomes
  import opened Money
  import opened Domain
  import opened Calendars
  import opened Lists
  import opened Sums
  import opened Holdings
  import opened Ledger
  import opened Snapshots
  import opened Risk
  import opened Rebalance
  import opened Replay
  import opened BookMeaning
  import opened Admission
  import opened LateFills
  import opened LateRuns
  import opened StoppedData
  import opened StoppedEntry
  import StoppedReplay

  // ---------- The data ----------

  /** A split of two for one, published when it takes effect. */
  function SplitAt(e: int): CorporateAction {
    CorporateAction(1, NAME, Split, true, e, e, e, 0, 2, 1, 0, None, false)
  }

  /** The bar of the first session is published at an instant of its own. */
  function LateBarOf(d: int, p: int): Bar {
    if d == FIRST_DAY then BarOf(d).(availableAt := p) else BarOf(d)
  }

  function Published(n: nat, p: int): seq<Bar> {
    seq(n, k requires 0 <= k < n => LateBarOf(k + 1, p))
  }

  function LateInput(p: int, e: int): ReplayInput {
    Input().(source := SOURCE.(bars := Published(HISTORY, p), actions := [SplitAt(e)]))
  }

  /** The bar is published after the decision of its session and by the next close, the split takes effect after the
      opening and by the next. */
  predicate Between(p: int, e: int) {
    DecisionTime(BUYING) < p <= SELLING.closeAt && BUYING.openAt < e <= SELLING.openAt
  }

  function InForce(e: int, asOf: int): seq<CorporateAction> {
    if e <= asOf then [SplitAt(e)] else []
  }

  /** What is known before the late bar is published. */
  function EarlyData(asOf: int, e: int): Snapshot {
    Data(asOf, FIRST_DAY - 1).(actions := InForce(e, asOf))
  }

  function LateData(asOf: int, p: int, e: int): Snapshot {
    Snapshot(asOf, [STOCK], Published(HISTORY, p), [], [SplitAt(e)], CALENDAR)
  }

  lemma NextLateBar(n: nat, p: int)
    requires n > 0
    ensures Published(n, p) == Published(n - 1, p) + [LateBarOf(n, p)]
    ensures Published(n, p)[..n - 1] == Published(n - 1, p)
  {
  }

  lemma {:induction false} EarlierKnown(n: nat, p: int, asOf: int)
    requires n < FIRST_DAY && START.closeAt <= asOf
    ensures Latest(Published(n, p), BarKnown(asOf), BarOrder(), NewerBar()) == Bars(n)
  {
    if n > 0 {
      EarlierKnown(n - 1, p, asOf);
      NextLateBar(n, p);
      NextBar(n);
      hide Upsert;
      UpsertLast(Bars(n - 1), BarOf(n), BarOrder(), NewerBar());
    }
  }

  /** Until the second session closes, the bars of the days before the first one are known, and its own once
      published. */
  lemma EarlyBars(p: int, asOf: int)
    requires START.closeAt <= asOf < SELLING.closeAt
    ensures Latest(Published(HISTORY, p), BarKnown(asOf), BarOrder(), NewerBar())
         == Bars(FIRST_DAY - 1) + if p <= asOf then [LateBarOf(FIRST_DAY, p)] else []
  {
    EarlierKnown(FIRST_DAY - 1, p, asOf);
    NextLateBar(FIRST_DAY, p);
    NextLateBar(HISTORY, p);
    hide Upsert;
    UpsertLast(Bars(FIRST_DAY - 1), LateBarOf(FIRST_DAY, p), BarOrder(), NewerBar());
    var first := Latest(Published(FIRST_DAY, p), BarKnown(asOf), BarOrder(), NewerBar());
    assert Latest(Published(HISTORY, p), BarKnown(asOf), BarOrder(), NewerBar()) == first;
  }

  lemma {:induction false} AllBars(n: nat, p: int, asOf: int)
    requires n <= HISTORY && SELLING.closeAt <= asOf && p <= asOf
    ensures Latest(Published(n, p), BarKnown(asOf), BarOrder(), NewerBar()) == Published(n, p)
  {
    if n > 0 {
      AllBars(n - 1, p, asOf);
      NextLateBar(n, p);
      hide Upsert;
      UpsertLast(Published(n - 1, p), LateBarOf(n, p), BarOrder(), NewerBar());
    }
  }

  lemma ActionsKnown(e: int, asOf: int)
    ensures Latest([SplitAt(e)], ActionKnown(asOf), ActionOrder(), NewerAction()) == InForce(e, asOf)
  {
    assert [SplitAt(e)][..0] == [];
  }

  lemma NothingElse(asOf: int)
    ensures Sort([STOCK], ById()) == [STOCK] && Latest([], FactKnown(asOf), FactOrder(), NewerFact()) == []
  {
    SortSorted([STOCK], ById());
  }

  lemma EarlyKnown(p: int, e: int, asOf: int)
    requires START.closeAt <= asOf < SELLING.closeAt && asOf < p
    ensures SelectSnapshot(LateInput(p, e).source, asOf) == EarlyData(asOf, e)
  {
    EarlyBars(p, asOf);
    ActionsKnown(e, asOf);
    NothingElse(asOf);
    hide Latest;
    hide Sort;
    assert Bars(FIRST_DAY - 1) + [] == Bars(FIRST_DAY - 1);
  }

  lemma LateKnown(p: int, e: int, asOf: int)
    requires SELLING.closeAt <= asOf && p <= asOf && e <= asOf
    ensures SelectSnapshot(LateInput(p, e).source, asOf) == LateData(asOf, p, e)
  {
    AllBars(HISTORY, p, asOf);
    ActionsKnown(e, asOf);
    NothingElse(asOf);
    hide Latest;
    hide Sort;
  }

  lemma {:induction false} EarlierBars(n: nat, p: int, asOf: int, date: int)
    requires n < date
    ensures ClosingPrices(Published(n, p), asOf, date) == map[] && BarsOn(Published(n, p), date) == map[]
    ensures OpeningPrices(Published(n, p), date) == map[]
  {
    if n > 0 {
      EarlierBars(n - 1, p, asOf, date);
      NextLateBar(n, p);
    }
  }

  /** The bars of the two sessions, once all are known. */
  lemma LateBarsOn(p: int)
    ensures BarsOn(Published(HISTORY, p), FIRST_DAY) == map[NAME := LateBarOf(FIRST_DAY, p)]
    ensures OpeningPrices(Published(HISTORY, p), FIRST_DAY) == map[NAME := 990_000]
    ensures ClosingPrices(Published(HISTORY, p), DecisionTime(SELLING), FIRST_DAY + 1) == map[NAME := 10 * DOLLAR]
  {
    EarlierBars(FIRST_DAY - 1, p, DecisionTime(SELLING), FIRST_DAY);
    NextLateBar(FIRST_DAY, p);
    NextLateBar(HISTORY, p);
    EarlierBars(FIRST_DAY, p, DecisionTime(SELLING), FIRST_DAY + 1);
  }

  // ---------- Reconciling: the split is taken once ----------

  function SplitEntry(e: int): LedgerEntry {
    ActionEntry(Owner(89_988, 10_012), SplitAt(e), SplitAdjustment, NO_CASH, 0)
  }

  function SplitBook(e: int): Book {
    Waiting().(ledger := Waiting().ledger + [SplitEntry(e)], applied := map[1 := SplitAt(e)])
  }

  lemma QuietSettle(b: Book, now: int)
    requires Sales(b) == []
    ensures Settle(b, CALENDAR, now) == Ok(b)
  {
    assert SettledKeys([]) == {};
    assert b.ledger + [] == b.ledger && b.settled + {} == b.settled;
    assert b.account.(balances := b.account.balances) == b.account;
  }

  /** A reconciliation with the split known or not is what it does for the split. */
  lemma SplitOnly(b: Book, s: Snapshot, e: int, now: int)
    requires Sales(b) == [] && s.calendar == CALENDAR && (s.actions == [SplitAt(e)] || (s.actions == [] && now < e))
    ensures Reconcile(b, s, now, {NAME}) == ReconcileAction(b, SplitAt(e), now, {NAME})
  {
    QuietSettle(b, now);
    SortSorted(s.actions, ByEffect());
    hide Sort;
    hide Settle;
    hide TakeAction;
    assert ReconcileActions(b, [SplitAt(e)], 0, now, {NAME}) == Ok(b);
    assert ReconcileActions(b, [SplitAt(e)], 1, now, {NAME}) == ReconcileAction(b, SplitAt(e), now, {NAME});
  }

  lemma NotYet(b: Book, s: Snapshot, e: int, now: int)
    requires Sales(b) == [] && s.calendar == CALENDAR && now < e && (s.actions == [SplitAt(e)] || s.actions == [])
    ensures Reconcile(b, s, now, {NAME}) == Ok(b)
  {
    hide Reconcile;
    SplitOnly(b, s, e, now);
  }

  /** Known, the action is left alone the next time. */
  lemma Already(b: Book, s: Snapshot, e: int, now: int)
    requires Sales(b) == [] && s.calendar == CALENDAR && s.actions == [SplitAt(e)] && b.applied == map[1 := SplitAt(e)]
    ensures Reconcile(b, s, now, {NAME}) == Ok(b)
  {
    hide Reconcile;
    SplitOnly(b, s, e, now);
  }

  /** The order waits for an opening before the split, so it is not cancelled. */
  lemma SplitTaken(e: int, now: int)
    requires BUYING.openAt < e
    ensures TakeAction(Waiting(), SplitAt(e), now) == Ok(SplitBook(e))
  {
    assert CancelForSplit(Waiting(), SplitAt(e), 0, now) == Ok(Waiting());
    assert CancelForSplit(Waiting(), SplitAt(e), 1, now) == Ok(Waiting());
    var account := Owner(89_988, 10_012);
    assert account.(balances := account.balances) == account;
    assert ApplyDelta(account.balances, NO_CASH) == Ok(account.balances);
    assert ApplySplit([], SplitAt(e)) == Ok(([], 0, 0));
    assert map[][1 := SplitAt(e)] == map[1 := SplitAt(e)];
  }

  lemma SplitReconciled(s: Snapshot, e: int, now: int)
    requires BUYING.openAt < e <= now && s.calendar == CALENDAR && s.actions == [SplitAt(e)]
    ensures Reconcile(Waiting(), s, now, {NAME}) == Ok(SplitBook(e))
  {
    hide Reconcile;
    hide TakeAction;
    hide SplitBook;
    NoSales(Waiting().ledger, {});
    SplitOnly(Waiting(), s, e, now);
    SplitTaken(e, now);
  }

  // ---------- The first session: the order waits ----------

  /** The book after the first session: the split is taken when it is in force by the decision. */
  function Left(e: int): Book {
    if e <= DecisionTime(BUYING) then SplitBook(e) else Waiting()
  }

  lemma SamePlan(b: Book, s: Snapshot, target: Session, p: int, e: int)
    ensures PlanSession(b, s, LateInput(p, e), target) == PlanSession(b, s, Input(), target)
  {
    hide ComputeNAV;
    hide BuildRebalance;
    hide NextSession;
    hide IssueOrders;
    assert EvaluationOf(LateInput(p, e), s) == EvaluationOf(Input(), s);
  }

  /** Without its bar the order is left to wait. */
  lemma BuyWaits(source: Snapshot, e: int)
    ensures Execute(Book1(), source, EarlyData(DecisionTime(BUYING), e), DecisionTime(BUYING)) == Ok(Waiting())
  {
    var now, current := DecisionTime(BUYING), EarlyData(DecisionTime(BUYING), e);
    DayOf(FIRST_DAY, BUYING.openAt);
    OlderBars(FIRST_DAY - 1, now, FIRST_DAY);
    SortSorted([BUY], ByOpening());
    hide Sort;
    hide BarsOn;
    hide OpeningMatch;
    assert [BUY][0 := WAITING] == [WAITING];
    assert Advance(Book1(), 0, now) == Waiting();
    assert !HasOpening(current, WAITING);
    hide HasOpening;
    assert ExecuteOrders(Book1(), source, current, 0, now) == Ok(Book1());
    assert ExecuteOrder(Book1(), source, current, 0, now) == Ok(Waiting());
    assert ExecuteOrders(Book1(), source, current, 1, now) == Ok(Waiting());
  }

  lemma WaitingNav(e: int)
    ensures ComputeNAV(Owner(89_988, 10_012), [], EarlyData(DecisionTime(BUYING), e), map[]) == Ok(CASH)
  {
    Completed(FIRST_DAY, DecisionTime(BUYING));
    OlderBars(FIRST_DAY - 1, DecisionTime(BUYING), FIRST_DAY);
    hide LatestCompleted;
    hide ClosingPrices;
    assert Quotes(EarlyData(DecisionTime(BUYING), e), map[]).Ok?;
    hide Quotes;
  }

  lemma EarlyActions(asOf: int, e: int)
    ensures EarlyData(asOf, e).calendar == CALENDAR && EarlyData(asOf, e).actions == InForce(e, asOf)
    ensures asOf < e ==> EarlyData(asOf, e) == Data(asOf, FIRST_DAY - 1)
  {
  }

  lemma FirstOpening(p: int, e: int)
    requires Between(p, e)
    ensures OpenSession(NewBook(CASH), LateInput(p, e), START, BUYING) == Ok(Book1())
  {
    var decisionAt := DecisionTime(START);
    EarlyActions(decisionAt, e);
    EarlyKnown(p, e, decisionAt);
    hide SelectSnapshot;
    hide Reconcile;
    hide PlanSession;
    hide Data;
    hide EarlyData;
    NotYet(NewBook(CASH), EarlyData(decisionAt, e), e, decisionAt);
    SamePlan(NewBook(CASH), EarlyData(decisionAt, e), BUYING, p, e);
    BuyPlanned();
  }

  lemma FirstClose(p: int, e: int)
    requires Between(p, e)
    ensures CloseSession(Book1(), LateInput(p, e), BUYING) == Ok(Left(e))
  {
    var now := DecisionTime(BUYING);
    var current := EarlyData(now, e);
    EarlyActions(now, e);
    EarlyKnown(p, e, now);
    NoSales(Book1().ledger, {});
    assert Left(e).account == Owner(89_988, 10_012) && Left(e).positions == [] && Left(e).peak == CASH;
    hide SelectSnapshot;
    hide Reconcile;
    hide Execute;
    hide ComputeNAV;
    hide EarlyData;
    hide SplitBook;
    NotYet(Book1(), current, e, BUYING.openAt);
    BuyWaits(LateInput(p, e).source, e);
    if e <= now {
      SplitReconciled(current, e, now);
    } else {
      NoSales(Waiting().ledger, {});
      NotYet(Waiting(), current, e, now);
    }
    WaitingNav(e);
  }

  // ---------- The second session: the split, then the fill ----------

  function BoughtBook(e: int): Book {
    AfterBuy(SplitBook(e), DecisionTime(SELLING))
  }

  lemma NothingPlanned(p: int, e: int)
    requires Between(p, e)
    ensures OpenSession(Left(e), LateInput(p, e), BUYING, SELLING) == Ok(Left(e))
  {
    var now := DecisionTime(BUYING);
    EarlyKnown(p, e, now);
    EarlyActions(now, e);
    NoSales(Left(e).ledger, {});
    assert !Left(e).orders[0].Terminal();
    assert Unresolved(Left(e).orders);
    hide SelectSnapshot;
    hide Reconcile;
    hide EarlyData;
    if e <= now {
      Already(SplitBook(e), EarlyData(now, e), e, now);
    } else {
      NotYet(Waiting(), EarlyData(now, e), e, now);
    }
  }

  /** At the second opening the split is taken, unless it already was. */
  lemma SplitByOpening(s: Snapshot, e: int)
    requires BUYING.openAt < e <= SELLING.openAt && s.calendar == CALENDAR && s.actions == [SplitAt(e)]
    ensures Reconcile(Left(e), s, SELLING.openAt, {NAME}) == Ok(SplitBook(e))
  {
    hide Reconcile;
    if e <= DecisionTime(BUYING) {
      NoSales(SplitBook(e).ledger, {});
      Already(SplitBook(e), s, e, SELLING.openAt);
    } else {
      SplitReconciled(s, e, SELLING.openAt);
    }
  }

  lemma LateOpening(p: int, e: int)
    requires Between(p, e)
    ensures DateOf(BUYING.openAt) == FIRST_DAY && HasOpening(LateData(DecisionTime(SELLING), p, e), WAITING)
    ensures SelectSnapshot(LateInput(p, e).source, BUYING.openAt - 1) == Data(BUYING.openAt - 1, FIRST_DAY - 1)
    ensures WaitsForBuy(SplitBook(e)) && Advance(SplitBook(e), 0, DecisionTime(SELLING)) == SplitBook(e)
  {
    DayOf(FIRST_DAY, BUYING.openAt);
    LateBarsOn(p);
    EarlyKnown(p, e, BUYING.openAt - 1);
    EarlyActions(BUYING.openAt - 1, e);
    hide BarsOn;
    hide SelectSnapshot;
    assert [WAITING][0 := WAITING] == [WAITING];
  }

  /** The buy is filled at its opening, behind the split. */
  lemma LateFill(p: int, e: int)
    requires Between(p, e)
    ensures Execute(SplitBook(e), LateInput(p, e).source, LateData(DecisionTime(SELLING), p, e), DecisionTime(SELLING))
         == Ok(BoughtBook(e))
  {
    var now, current, source := DecisionTime(SELLING), LateData(DecisionTime(SELLING), p, e), LateInput(p, e).source;
    LateOpening(p, e);
    LateBarsOn(p);
    BuyMatchedAtOpening(SplitBook(e), now);
    BuyFilled(SplitBook(e), now);
    SortSorted([WAITING], ByOpening());
    assert SplitBook(e).orders == [WAITING] && SplitBook(e).fills == [];
    hide SelectSnapshot;
    hide HasOpening;
    hide OpeningPrices;
    hide BarsOn;
    hide OpeningMatch;
    hide CloseFilled;
    hide Sort;
    hide SplitBook;
    hide Data;
    assert ExecuteOrders(SplitBook(e), source, current, 0, now) == Ok(SplitBook(e));
    assert ExecuteOrder(SplitBook(e), source, current, 0, now) == Ok(BoughtBook(e));
    assert ExecuteOrders(SplitBook(e), source, current, 1, now) == Ok(BoughtBook(e));
  }

  lemma LateNav(p: int, e: int)
    ensures ComputeNAV(Owner(90_089, 0), [Position(NAME, 100, 0, 9_911)], LateData(DecisionTime(SELLING), p, e), map[])
         == Ok(PEAK)
  {
    Completed(FIRST_DAY + 1, DecisionTime(SELLING));
    LateBarsOn(p);
    hide LatestCompleted;
    hide ClosingPrices;
    var rows, prices := [Position(NAME, 100, 0, 9_911)], map[NAME := 10 * DOLLAR];
    assert prices + map[] == prices;
    assert Quotes(LateData(DecisionTime(SELLING), p, e), map[]) == Ok(prices);
    hide Quotes;
    assert rows[..0] == [];
    assert AddHoldings(90_089, rows[..0], prices) == Ok(90_089);
    assert GrossValue(10 * DOLLAR, 100) == Ok(100_000);
    assert AddHoldings(90_089, rows, prices) == Ok(PEAK);
  }

  lemma SecondClose(p: int, e: int)
    requires Between(p, e)
    ensures CloseSession(Left(e), LateInput(p, e), SELLING) == Ok(BoughtBook(e).(peak := PEAK))
  {
    var now := DecisionTime(SELLING);
    var current, b := LateData(now, p, e), BoughtBook(e);
    NoSales(b.ledger, {});
    assert b.account == Owner(90_089, 0) && b.positions == [Position(NAME, 100, 0, 9_911)] && b.peak == CASH;
    assert b.applied == map[1 := SplitAt(e)];
    assert current.calendar == CALENDAR && current.actions == [SplitAt(e)];
    LateKnown(p, e, now);
    hide SelectSnapshot;
    hide Reconcile;
    hide Execute;
    hide ComputeNAV;
    hide LateData;
    hide SplitBook;
    hide BoughtBook;
    hide Left;
    SplitByOpening(current, e);
    LateFill(p, e);
    Already(b, current, e, now);
    LateNav(p, e);
  }

  // ---------- The replay ----------

  lemma LateWarmedUp(p: int, e: int)
    ensures Warm(LateInput(p, e), START)
  {
    var earlier, asOf := Bars(FIRST_DAY - 1), DecisionTime(START);
    EarlyBars(p, asOf);
    FilterAll(earlier, WarmBars(NAME, FIRST_DAY));
    hide Latest;
    hide Sort;
    if p <= asOf {
      var all := earlier + [LateBarOf(FIRST_DAY, p)];
      assert all[..|all| - 1] == earlier;
    } else {
      assert earlier + [] == earlier;
    }
  }

  lemma LateDays(p: int, e: int)
    ensures var days := ReplayDays(LateInput(p, e));
      && Admit(LateInput(p, e)) == Ok(days) && days == [START] + StoppedReplay.RunDays(StoppedReplay.SESSIONS_RUN)
  {
    StoppedReplay.Admitted();
    LateWarmedUp(p, e);
    Policy(CASH);
    hide Sort;
    hide Filter;
    hide LastBefore;
    hide Warm;
    hide StrategyParameters.Valid;
    hide StoppedReplay.RunDays;
    assert forall s :: InRange(LateInput(p, e))(s) == InRange(Input())(s);
  }

  lemma LateRun(p: int, e: int, days: seq<Session>)
    requires Between(p, e) && |days| > 2 && days[0] == START && days[1] == BUYING && days[2] == SELLING
    ensures RunSessions(LateInput(p, e), days, 2) == Ok(BoughtBook(e).(peak := PEAK))
  {
    assert LateInput(p, e).initialCash == CASH;
    hide OpenSession;
    hide CloseSession;
    hide BoughtBook;
    hide Left;
    hide Book1;
    hide LateInput;
    FirstOpening(p, e);
    FirstClose(p, e);
    NothingPlanned(p, e);
    SecondClose(p, e);
    assert RunSessions(LateInput(p, e), days, 0) == Ok(NewBook(CASH));
    assert RunSessions(LateInput(p, e), days, 1) == Ok(Left(e));
  }

  lemma OutOfStep(e: int)
    requires BUYING.openAt < e
    ensures var b := BoughtBook(e).(peak := PEAK);
      !InStep(b.ledger) && Held(b.positions, NAME) == 100 && 1 in b.applied
        && b.fills == [FillOfBuy(DecisionTime(SELLING))]
  {
    var ledger := BoughtBook(e).ledger;
    var i, j := |ledger| - 2, |ledger| - 1;
    assert ledger[i] == SplitEntry(e) && ledger[j].key == FillKey(BUY.id) && ledger[j].effectiveAt == BUYING.openAt;
    assert ledger[i].key.ActionKey? && ledger[i].instrument == NAME && ledger[i].effectiveAt == e;
    assert ledger[j].instrument == NAME;
    var rows := [Position(NAME, 100, 0, 9_911)];
    assert BoughtBook(e).positions == rows && rows[..0] == [];
    assert Sum(rows[..0], SharesOf(NAME)) == 0;
    assert Held(rows, NAME) == 100;
  }

  /** A bar published late, a split in between, and the fill is out of step: an admitted replay buys a hundred shares
      before a split that doubles them, and has a hundred. */
  lemma LateFillMissesSplit(p: int, e: int)
    requires Between(p, e)
    ensures Admit(LateInput(p, e)) == Ok(ReplayDays(LateInput(p, e))) && |ReplayDays(LateInput(p, e))| > 2
    ensures var r := RunSessions(LateInput(p, e), ReplayDays(LateInput(p, e)), 2);
      && r.Ok? && !InStep(r.value.ledger) && Held(r.value.positions, NAME) == 100
      && 1 in r.value.applied && r.value.fills == [FillOfBuy(DecisionTime(SELLING))]
    ensures FillOfBuy(DecisionTime(SELLING)).effectiveAt < e
  {
    LateDays(p, e);
    var run := StoppedReplay.RunDays(StoppedReplay.SESSIONS_RUN);
    assert run[0] == BUYING && run[1] == SELLING;
    hide ReplayDays;
    hide Admit;
    hide RunSessions;
    hide InStep;
    hide BoughtBook;
    hide LateInput;
    LateRun(p, e, ReplayDays(LateInput(p, e)));
    OutOfStep(e);
  }

  // ---------- Exactly when ----------

  lemma CalendarIsSpaced()
    ensures Spaced(CALENDAR.sessions)
  {
    forall s | s in Days(SESSIONS)
      ensures Proper(s)
    {
      var k :| 0 <= k < |Days(SESSIONS)| && Days(SESSIONS)[k] == s;
      assert s == Day(FIRST_DAY - 1 + k);
    }
    forall i, j | 0 <= i < j < |Days(SESSIONS)|
      ensures Before(Days(SESSIONS)[i], Days(SESSIONS)[j])
    {
      assert Days(SESSIONS)[i] == Day(FIRST_DAY - 1 + i) && Days(SESSIONS)[j] == Day(FIRST_DAY - 1 + j);
    }
  }

  /** The only bar that can be late is that of the first session. */
  lemma OnlyBetween(p: int, e: int, days: seq<Session>, k: int, id: int)
    requires days == [START] + StoppedReplay.RunDays(StoppedReplay.SESSIONS_RUN)
    requires ExposedAt(LateInput(p, e), days, k, id)
    ensures Between(p, e)
  {
    var bars, session, next := Published(HISTORY, p), days[k], days[k + 1];
    assert session == Day(FIRST_DAY + k - 1) && next == Day(FIRST_DAY + k);
    DayOf(FIRST_DAY + k - 1, session.openAt);
    var i :| 0 <= i < |bars| && bars[i].instrument == id && bars[i].sessionDate == DateOf(session.openAt)
             && Opened(bars[i])
             && DecisionTime(session) < bars[i].availableAt <= next.closeAt;
    assert bars[i] == LateBarOf(i + 1, p);
    assert i + 1 == FIRST_DAY + k - 1;
  }

  /** Some part of a replay leaves a ledger in which a fill is behind an action of its name that took effect after
      it. */
  ghost predicate FallsOutOfStep(input: ReplayInput, days: seq<Session>) {
    exists n :: 0 <= n < |days| && RunSessions(input, days, n).Ok? && !InStep(RunSessions(input, days, n).value.ledger)
  }

  /** Over every publication instant of the bar and every instant the split takes effect, the replay is admitted, and it
      falls out of step if and only if the bar is late and the split takes effect between the two openings. */
  lemma ExactlyLateBarsFallOutOfStep(p: int, e: int)
    ensures Admit(LateInput(p, e)) == Ok(ReplayDays(LateInput(p, e)))
    ensures FallsOutOfStep(LateInput(p, e), ReplayDays(LateInput(p, e))) <==> Between(p, e)
  {
    var input, days := LateInput(p, e), ReplayDays(LateInput(p, e));
    assert input.source.calendar == CALENDAR;
    hide *;
    LateDays(p, e);
    assert FallsOutOfStep(input, days) ==> Between(p, e) by {
      OutOfStepIsBetween(p, e);
    }
    if Between(p, e) {
      LateFillMissesSplit(p, e);
      assert FallsOutOfStep(input, days) by {
        FoundOutOfStep(input, days, 2);
      }
    }
  }

  lemma FoundOutOfStep(input: ReplayInput, days: seq<Session>, n: nat)
    requires n < |days| && RunSessions(input, days, n).Ok? && !InStep(RunSessions(input, days, n).value.ledger)
    ensures FallsOutOfStep(input, days)
  {
    hide RunSessions;
    hide InStep;
  }

  lemma OutOfStepIsBetween(p: int, e: int)
    ensures FallsOutOfStep(LateInput(p, e), ReplayDays(LateInput(p, e))) ==> Between(p, e)
  {
    var input, days := LateInput(p, e), ReplayDays(LateInput(p, e));
    assert input.source.calendar == CALENDAR;
    LateDays(p, e);
    CalendarIsSpaced();
    hide RunSessions;
    hide InStep;
    hide ReplayDays;
    hide Admit;
    hide Spaced;
    hide ExposedAt;
    hide Between;
    hide LateInput;
    if FallsOutOfStep(input, days) {
      var n :| 0 <= n < |days| && RunSessions(input, days, n).Ok? && !InStep(RunSessions(input, days, n).value.ledger);
      OutOfStepIsExposed(input, days, n);
      var k, id :| k < n && ExposedAt(input, days, k, id);
      OnlyBetween(p, e, days, k, id);
    }
  }
}
