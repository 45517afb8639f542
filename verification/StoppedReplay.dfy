// A replay that its order numbers stop: both sells of its second session are filled under one number, and no
// reconciliation accepts the book again.
module StoppedReplay {
  import opened Outcomes
  import opened Money
  import opened Sizing
  import opened Domain
  import opened Calendars
  import opened Lists
  import opened Sums
  import opened Ledger
  import opened Snapshots
  import opened Risk
  import opened Rebalance
  import opened Execution
  import opened Replay
  import opened DistinctSales
  import opened SettlingRuns
  import opened StoppedData
  import opened StoppedEntry
  import opened StoppedPlan

  // ---------- Matching a sell at the opening ----------

  const SOLD := 9_990_000

  function Prior(): Snapshot {
    Data(SELLING.openAt - 1, FIRST_DAY)
  }

  function SellMatch(account: Account, row: Position, orders: seq<Order>, o: Order, nav: int, capacity: int,
                     turnover: int): MatchInput {
    MatchInput(o, TEN, capacity,
               PortfolioInput(account, [row], orders, Prior(), Evaluation(false, []), DEFAULT_POLICY, nav, 0, turnover,
                              PRICES, StrategyParameters([], 0.0, 0.0, 0.0, 0)),
               DecisionTime(SELLING))
  }

  function SellFillOf(reason: Reason, quantity: int, gross: int, fee: int): Fill {
    Fill(ReplayId(FIRST_DAY + 1, NAME, Sell), REPLAY_ACCOUNT, NAME, Sell, reason, quantity, SOLD, gross, fee, 0,
         quantity, SELLING.openAt, DecisionTime(SELLING), 300 * DAY)
  }

  lemma PriorQuotes()
    ensures Quotes(Prior(), PRICES) == Ok(PRICES)
  {
    Quoted(FIRST_DAY, SELLING.openAt - 1, PRICES);
    assert map[NAME := 10 * DOLLAR] + PRICES == PRICES;
  }

  /** Every other order is closed or has the same number, so none competes for the turnover. */
  predicate NoneCompetes(orders: seq<Order>, o: Order) {
    o in orders && forall k :: 0 <= k < |orders| ==> orders[k].id == o.id || orders[k].Terminal()
  }

  lemma SellOrderSizing(account: Account, row: Position, orders: seq<Order>, o: Order, nav: int, capacity: int,
                        turnover: int, available: int, left: int)
    requires NoneCompetes(orders, o) && row.instrument == NAME && 0 <= row.reservedQuantity <= row.quantity
    requires o.side == Sell && o.instrument == NAME && 0 < o.quantity <= 100 && nav > 0 && turnover >= 0
    requires account.initialCash >= 0
    requires row.quantity - row.reservedQuantity + Sum(orders, SharesOfOrder(o.id)) == available
    requires 0 <= available <= 100
    requires left == NotBelowZero(MoneyLimit(nav, 0.2) - turnover)
    ensures OrderSizing(MatchRequest(SellMatch(account, row, orders, o, nav, capacity, turnover), o, SOLD))
         == Ok(Sized(available,
                     if EmergencySell(o.reason) then Unlimited else GrossWithin(SOLD, left),
                     RiskLimitExceeded))
  {
    var request, budget := MatchRequest(SellMatch(account, row, orders, o, nav, capacity, turnover), o, SOLD),
                           MoneyLimit(nav, 0.2) - turnover;
    var k :| 0 <= k < |orders| && orders[k] == o;
    assert WithOrder(orders, o) == orders;
    hide WithOrder;
    PriorQuotes();
    Catalog();
    assert Prior().instruments == [STOCK];
    hide Prior;
    hide Quotes;
    hide InstrumentsById;
    hide OrderSizing;
    hide Sum;
    hide MoneyLimit;
    OneRowFree(row);
    hide FreeShares;
    NothingCompetes(budget, orders, PRICES[NAME := SOLD], CATALOG, o.id, o.targetOpenAt);
    hide TurnoverAfter;
    Policy(PEAK);
    hide RiskPolicy.Valid;
    assert OwnShares(orders, Some(o.id)) == Sum(orders, SharesOfOrder(o.id));
    SellCheck(request, budget, available);
  }

  lemma FillOfSell(input: MatchInput, reason: Reason, quantity: int, gross: int, fee: int)
    requires input.recordedAt == DecisionTime(SELLING) && input.portfolio.snapshot.calendar == CALENDAR
    requires GrossValue(SOLD, quantity) == Ok(gross) && TradeFee(gross) == Ok(fee) && fee <= gross
    ensures FillAt(input, SellOrder(AwaitingBar, reason, quantity), SOLD, quantity)
         == Ok(FillResult(Some(SellFillOf(reason, quantity, gross, fee)), 0, NoReason))
  {
    Settles(FIRST_DAY + 1);
    hide SettlementStart;
    hide GrossValue;
    hide TradeFee;
  }

  /** A sell that may be carried out in full is filled in full. */
  lemma SellFilledInFull(input: MatchInput, reason: Reason, quantity: int, gross: int, fee: int)
    requires input.order == SellOrder(AwaitingBar, reason, quantity) && 0 < quantity <= 100
    requires input.openPrice == TEN && input.availableCapacity >= quantity && input.recordedAt == DecisionTime(SELLING)
    requires input.portfolio.snapshot.calendar == CALENDAR
    requires var r := ValidateOrder(MatchRequest(input, input.order, SOLD)); r.Ok? && r.value.maxQuantity >= quantity
    requires GrossValue(SOLD, quantity) == Ok(gross) && TradeFee(gross) == Ok(fee) && fee <= gross
    ensures MatchAtOpen(input) == Ok(FillResult(Some(SellFillOf(reason, quantity, gross, fee)), 0, NoReason))
  {
    hide ValidateOrder;
    hide MatchRequest;
    hide GrossValue;
    hide TradeFee;
    hide FillAt;
    assert SlippedPrice(TEN, Sell) == Ok(SOLD);
    hide SlippedPrice;
    FillOfSell(input, reason, quantity, gross, fee);
    var risk := ValidateOrder(MatchRequest(input, input.order, SOLD)).value;
    assert MatchedQuantity(input.order, risk, input.availableCapacity) == quantity;
  }

  // ---------- The two fills ----------

  const BOUGHT := BUY.(state := Filled)
  const ROW := Position(NAME, 100, 81, 9_911)
  const LEFT := Position(NAME, 62, 43, 6_145)
  const LAST := Position(NAME, 19, 0, 1_883)
  const FIRST_FILL := SellFillOf(ExitSignal, 38, 37_962, 4)
  const SECOND_FILL := SellFillOf(ReduceSingleRisk, 43, 42_957, 5)

  function Proceeds(unsettled: int): Account {
    Owner(90_089, 0).(balances := Balances(90_089, 0, unsettled, 0))
  }

  /** The orders as the executions find and leave them. */
  function Closing(first: OrderState, second: OrderState): seq<Order> {
    [BOUGHT, Exiting(first), Reducing(second)]
  }

  lemma LargestSale()
    ensures MaxWholeQuantity(100, GrossWithin(SOLD, 38_017)) == 38
  {
    var test := GrossWithin(SOLD, 38_017);
    assert Fits(test, 38) && !Fits(test, 39);
    hide MaxWholeQuantity;
    hide Fits;
    Largest(100, test, 38);
  }

  lemma SaleValues()
    ensures GrossValue(SOLD, 38) == Ok(37_962) && TradeFee(37_962) == Ok(4)
    ensures GrossValue(SOLD, 43) == Ok(42_957) && TradeFee(42_957) == Ok(5)
  {
  }

  lemma Allowed(request: RiskInput, limit: int, test: SizeTest, size: int)
    requires OrderSizing(request) == Ok(Sized(limit, test, RiskLimitExceeded)) && MaxWholeQuantity(limit, test) == size
    ensures ValidateOrder(request).Ok? && ValidateOrder(request).value.maxQuantity == size
  {
    hide OrderSizing;
    hide MaxWholeQuantity;
  }

  lemma FirstMatched()
    ensures MatchAtOpen(SellMatch(Owner(90_089, 0), ROW, Closing(AwaitingBar, Pending), Exiting(AwaitingBar), PEAK,
                                  10_000, 0))
         == Ok(FillResult(Some(FIRST_FILL), 0, NoReason))
  {
    var orders, o := Closing(AwaitingBar, Pending), Exiting(AwaitingBar);
    var input := SellMatch(Owner(90_089, 0), ROW, orders, o, PEAK, 10_000, 0);
    OwnShares2(AwaitingBar, Pending);
    ExitLimits();
    LargestSale();
    SaleValues();
    hide MaxWholeQuantity;
    hide OrderSizing;
    hide MatchRequest;
    hide MatchAtOpen;
    hide ValidateOrder;
    hide GrossValue;
    hide TradeFee;
    hide MoneyLimit;
    hide Sum;
    hide Closing;
    SellOrderSizing(Owner(90_089, 0), ROW, orders, o, PEAK, 10_000, 0, 100, 38_017);
    Allowed(MatchRequest(input, o, SOLD), 100, GrossWithin(SOLD, 38_017), 38);
    SellFilledInFull(input, ExitSignal, 38, 37_962, 4);
  }

  /** Both sells have one number, so each counts the shares of both, as long as they are open. */
  lemma OwnShares2(first: OrderState, second: OrderState)
    requires first == AwaitingBar || first == Filled
    requires second == AwaitingBar || second == Pending
    ensures NoneCompetes(Closing(first, second), Exiting(first))
    ensures NoneCompetes(Closing(first, second), Reducing(second))
    ensures Sum(Closing(first, second), SharesOfOrder(Exiting(first).id)) == if first == Filled then 43 else 81
  {
    var orders := Closing(first, second);
    assert orders[..2] == [BOUGHT, Exiting(first)] && orders[..2][..1] == [BOUGHT] && orders[..2][..1][..0] == [];
    assert orders[0] == BOUGHT && orders[1] == Exiting(first) && orders[2] == Reducing(second);
    assert Sum(orders[..2][..1], SharesOfOrder(Exiting(first).id)) == 0;
    assert Sum(orders[..2], SharesOfOrder(Exiting(first).id)) == if first == Filled then 0 else 38;
  }

  lemma SecondMatched()
    ensures MatchAtOpen(SellMatch(Proceeds(37_958), LEFT, Closing(Filled, AwaitingBar), Reducing(AwaitingBar), 190_047,
                                  9_962, 37_962))
         == Ok(FillResult(Some(SECOND_FILL), 0, NoReason))
  {
    var orders, o := Closing(Filled, AwaitingBar), Reducing(AwaitingBar);
    var input := SellMatch(Proceeds(37_958), LEFT, orders, o, 190_047, 9_962, 37_962);
    OwnShares2(Filled, AwaitingBar);
    SaleValues();
    assert Fits(Unlimited, 62);
    Largest(62, Unlimited, 62);
    hide MaxWholeQuantity;
    hide OrderSizing;
    hide MatchRequest;
    hide MatchAtOpen;
    hide ValidateOrder;
    hide GrossValue;
    hide TradeFee;
    hide MoneyLimit;
    hide Sum;
    hide Closing;
    SellOrderSizing(Proceeds(37_958), LEFT, orders, o, 190_047, 9_962, 37_962, 62,
                    NotBelowZero(MoneyLimit(190_047, 0.2) - 37_962));
    Allowed(MatchRequest(input, o, SOLD), 62, Unlimited, 62);
    SellFilledInFull(input, ReduceSingleRisk, 43, 42_957, 5);
  }

  // ---------- The orders executed ----------

  /** A book after one of its sells has been filled. */
  function AfterFill(b: Book, n: nat, fill: Fill, row: Position, unsettled: int): Book
    requires n < |b.orders|
  {
    b.(account := Proceeds(unsettled), positions := [row], orders := b.orders[n := b.orders[n].(state := Filled)],
       ledger := b.ledger + [FillEntry(b.account, fill, Balances(0, 0, fill.gross - fill.fee, 0))],
         fills := b.fills + [fill])
  }

  lemma SellClosed(b: Book, n: nat, fill: Fill, row: Position, after: Position, unsettled: int)
    requires n < |b.orders| && b.account == Proceeds(unsettled) && b.positions == [row]
    requires row.instrument == fill.instrument == after.instrument && fill.side == Sell && 0 <= unsettled <= 100_000
    requires WellFormedFill(b.account, fill) && 0 < fill.fee <= fill.gross <= 100_000
    requires FillEffect(row, fill) == Ok((after, Balances(0, 0, fill.gross - fill.fee, 0)))
    ensures CloseFilled(b, n, fill, false) == Ok(AfterFill(b, n, fill, after, unsettled + fill.gross - fill.fee))
  {
    hide WellFormedFill;
    hide FillEffect;
    hide FillEntry;
    SortSorted([after], ByInstrument());
    hide Sort;
    assert [row][1..] == [];
    assert Occurrences([row], fill.instrument) == 1 && IndexOf([row], fill.instrument) == 0;
    assert [row][0 := after] == [after];
    var delta := Balances(0, 0, fill.gross - fill.fee, 0);
    assert ApplyDelta(b.account.balances, delta) == Ok(Balances(90_089, 0, unsettled + fill.gross - fill.fee, 0));
    assert ApplyFill(b.account, b.positions, fill)
        == Ok(Mutation(Proceeds(unsettled + fill.gross - fill.fee), [after], [FillEntry(b.account, fill, delta)]));
  }

  lemma FillEffects()
    ensures FillEffect(ROW, FIRST_FILL) == Ok((LEFT, Balances(0, 0, 37_958, 0)))
    ensures FillEffect(LEFT, SECOND_FILL) == Ok((LAST, Balances(0, 0, 42_952, 0)))
  {
    assert ProportionalCost(9_911, 38, 100) == Ok(3_766);
    assert ProportionalCost(6_145, 43, 62) == Ok(4_262);
    hide ProportionalCost;
  }

  function Waiting5(): Book {
    Book5().(orders := Closing(AwaitingBar, Pending))
  }

  function Book6(): Book {
    AfterFill(Waiting5(), 1, FIRST_FILL, LEFT, 37_958)
  }

  function Waiting6(): Book {
    Book6().(orders := Closing(Filled, AwaitingBar))
  }

  function Book7(): Book {
    AfterFill(Waiting6(), 2, SECOND_FILL, LAST, 80_910)
  }

  lemma SellsClosed()
    ensures CloseFilled(Waiting5(), 1, FIRST_FILL, false) == Ok(Book6()) && Book6().orders == Closing(Filled, Pending)
    ensures CloseFilled(Waiting6(), 2, SECOND_FILL, false) == Ok(Book7()) && Book7().orders == Closing(Filled, Filled)
  {
    FillEffects();
    SaleValues();
    hide FillEffect;
    hide GrossValue;
    hide TradeFee;
    hide CloseFilled;
    SellClosed(Waiting5(), 1, FIRST_FILL, ROW, LEFT, 0);
    SellClosed(Waiting6(), 2, SECOND_FILL, LEFT, LAST, 37_958);
    assert Closing(AwaitingBar, Pending)[1 := Exiting(Filled)] == Closing(Filled, Pending);
    assert Closing(Filled, AwaitingBar)[2 := Reducing(Filled)] == Closing(Filled, Filled);
  }

  lemma OpeningNavs()
    ensures ComputeNAV(Owner(90_089, 0), [ROW], Prior(), PRICES) == Ok(PEAK)
    ensures ComputeNAV(Proceeds(37_958), [LEFT], Prior(), PRICES) == Ok(190_047)
  {
    PriorQuotes();
    RowNav(Owner(90_089, 0), ROW, 90_089);
    RowNav(Proceeds(37_958), LEFT, 128_047);
  }

  lemma RowNav(account: Account, row: Position, cash: int)
    requires TotalCash(account.balances) == Ok(cash) && row.instrument == NAME && 0 < row.quantity <= 100
    requires 0 <= cash <= 1_000_000
    ensures ComputeNAV(account, [row], Prior(), PRICES) == Ok(cash + 1000 * row.quantity)
  {
    PriorQuotes();
    hide Quotes;
    hide TotalCash;
    assert [row][..0] == [];
    assert AddHoldings(cash, [row][..0], PRICES) == Ok(cash);
    assert GrossValue(TEN, row.quantity) == Ok(1000 * row.quantity);
  }

  /** What is known at the close of the second session and just before its opening. */
  lemma SellOpened(o: Order)
    requires o == Exiting(AwaitingBar) || o == Reducing(AwaitingBar)
    ensures var current := Data(DecisionTime(SELLING), FIRST_DAY + 1);
      && SelectSnapshot(SOURCE, DecisionTime(SELLING)) == current && HasOpening(current, o)
      && OpeningPrices(current.bars, DateOf(SELLING.openAt)) == PRICES
      && BarsOn(current.bars, DateOf(SELLING.openAt)) == map[NAME := BarOf(FIRST_DAY + 1)]
      && SelectSnapshot(SOURCE, SELLING.openAt - 1) == Prior()
  {
    DayOf(FIRST_DAY + 1, SELLING.openAt);
    Known(FIRST_DAY + 1, DecisionTime(SELLING));
    Known(FIRST_DAY, SELLING.openAt - 1);
    LastBar(FIRST_DAY + 1, DecisionTime(SELLING));
    hide SelectSnapshot;
    hide BarsOn;
    hide OpeningPrices;
  }

  lemma SmallestOfSells(first: OrderState, second: OrderState, o: Order)
    requires o.capacity == 10_000
    ensures SmallestCapacity(Closing(first, second), o) == 10_000
  {
    var orders := Closing(first, second);
    assert orders[..2] == [BOUGHT, Exiting(first)] && orders[..1] == [BOUGHT] && orders[..2][..1] == orders[..1]
           && orders[..1][..0] == [];
    assert SmallestCapacity(orders[..1], o) == 10_000;
    assert SmallestCapacity(orders[..2], o) == 10_000;
  }

  lemma Used()
    ensures Sum([BUY_FILL], SharesFilled(SELLING.openAt, NAME)) == 0
    ensures Sum([BUY_FILL], GrossFilled(SELLING.openAt)) == 0
    ensures Sum([BUY_FILL, FIRST_FILL], SharesFilled(SELLING.openAt, NAME)) == 38
    ensures Sum([BUY_FILL, FIRST_FILL], GrossFilled(SELLING.openAt)) == 37_962
  {
    assert [BUY_FILL, FIRST_FILL][..1] == [BUY_FILL] && [BUY_FILL][..0] == [];
    assert BUYING.openAt != SELLING.openAt;
  }

  lemma MatchedAtOpening()
    ensures OpeningMatch(Waiting5(), Exiting(AwaitingBar), Prior(), PRICES, TEN, 0, 0, DecisionTime(SELLING))
         == Ok(FillResult(Some(FIRST_FILL), 0, NoReason))
    ensures OpeningMatch(Waiting6(), Reducing(AwaitingBar), Prior(), PRICES, TEN, 38, 37_962, DecisionTime(SELLING))
         == Ok(FillResult(Some(SECOND_FILL), 0, NoReason))
  {
    FirstMatched();
    SecondMatched();
    OpeningNavs();
    SmallestOfSells(AwaitingBar, Pending, Exiting(AwaitingBar));
    SmallestOfSells(Filled, AwaitingBar, Reducing(AwaitingBar));
    hide MatchAtOpen;
    hide ComputeNAV;
    hide SmallestCapacity;
    hide Closing;
    hide Prior;
  }

  /** An order that has its opening is closed as it is matched. */
  lemma ExecutedAtOpening(b: Book, current: Snapshot, n: nat, now: int, advanced: Book, fill: Fill, used: int,
                          turnover: int)
    requires n < |b.orders| && !b.orders[n].Terminal() && now >= b.orders[n].targetOpenAt == SELLING.openAt
    requires b.orders[n].instrument == NAME && Advance(b, n, now) == advanced
    requires advanced.orders[n].targetOpenAt == SELLING.openAt
    requires advanced.orders[n].instrument == NAME && HasOpening(current, advanced.orders[n])
    requires SelectSnapshot(SOURCE, SELLING.openAt - 1) == Prior()
    requires OpeningPrices(current.bars, DateOf(SELLING.openAt)) == PRICES
    requires BarsOn(current.bars, DateOf(SELLING.openAt)) == map[NAME := BarOf(FIRST_DAY + 1)]
    requires Sum(advanced.fills, SharesFilled(SELLING.openAt, NAME)) == used
    requires Sum(advanced.fills, GrossFilled(SELLING.openAt)) == turnover
    requires OpeningMatch(advanced, advanced.orders[n], Prior(), PRICES, TEN, used, turnover, now)
         == Ok(FillResult(Some(fill), 0, NoReason))
    ensures ExecuteOrder(b, SOURCE, current, n, now) == CloseFilled(advanced, n, fill, false)
  {
    hide SelectSnapshot;
    hide HasOpening;
    hide OpeningPrices;
    hide BarsOn;
    hide OpeningMatch;
    hide CloseFilled;
    hide Prior;
    hide Sum;
  }

  lemma FirstAdvanced()
    ensures var b, now := Book5().(orders := Closing(Pending, Pending)), DecisionTime(SELLING);
      && Advance(b, 1, now) == Waiting5() && b.orders[1] == Exiting(Pending) && !b.orders[1].Terminal()
      && Waiting5().orders[1] == Exiting(AwaitingBar) && Waiting5().fills == [BUY_FILL]
  {
    assert Closing(Pending, Pending)[1 := Exiting(AwaitingBar)] == Closing(AwaitingBar, Pending);
  }

  lemma SecondAdvanced()
    ensures var b, now := Book6(), DecisionTime(SELLING);
      && b.orders == Closing(Filled, Pending) && Advance(b, 2, now) == Waiting6() && !b.orders[2].Terminal()
      && b.orders[2] == Reducing(Pending) && Waiting6().orders[2] == Reducing(AwaitingBar)
      && Waiting6().fills == [BUY_FILL, FIRST_FILL]
  {
    assert [BUY_FILL] + [FIRST_FILL] == [BUY_FILL, FIRST_FILL];
    assert Closing(AwaitingBar, Pending)[1 := Exiting(Filled)] == Closing(Filled, Pending);
    assert Closing(Filled, Pending)[2 := Reducing(AwaitingBar)] == Closing(Filled, AwaitingBar);
  }

  lemma FirstExecuted()
    ensures var b := Book5().(orders := Closing(Pending, Pending));
      ExecuteOrder(b, SOURCE, Data(DecisionTime(SELLING), FIRST_DAY + 1), 1, DecisionTime(SELLING)) == Ok(Book6())
  {
    var b := Book5().(orders := Closing(Pending, Pending));
    SellOpened(Exiting(AwaitingBar));
    MatchedAtOpening();
    SellsClosed();
    Used();
    FirstAdvanced();
    hide *;
    ExecutedAtOpening(b, Data(DecisionTime(SELLING), FIRST_DAY + 1), 1, DecisionTime(SELLING), Waiting5(), FIRST_FILL,
                      0, 0);
  }

  lemma SecondExecuted()
    ensures ExecuteOrder(Book6(), SOURCE, Data(DecisionTime(SELLING), FIRST_DAY + 1), 2, DecisionTime(SELLING))
         == Ok(Book7())
  {
    var b := Book6();
    SellOpened(Reducing(AwaitingBar));
    MatchedAtOpening();
    SellsClosed();
    Used();
    SecondAdvanced();
    hide *;
    ExecutedAtOpening(b, Data(DecisionTime(SELLING), FIRST_DAY + 1), 2, DecisionTime(SELLING), Waiting6(), SECOND_FILL,
                      38, 37_962);
  }

  /** Both sells are filled in full, under one number. */
  lemma SellsExecuted()
    ensures Execute(Book5(), SOURCE, Data(DecisionTime(SELLING), FIRST_DAY + 1), DecisionTime(SELLING)) == Ok(Book7())
  {
    var current, now := Data(DecisionTime(SELLING), FIRST_DAY + 1), DecisionTime(SELLING);
    var sorted := Book5().(orders := Closing(Pending, Pending));
    assert Book5().orders == Closing(Pending, Pending);
    SortSorted(Closing(Pending, Pending), ByOpening());
    FirstExecuted();
    SecondExecuted();
    hide Sort;
    hide Data;
    hide Book7;
    assert ExecuteOrder(sorted, SOURCE, current, 0, now) == Ok(sorted);
    hide ExecuteOrder;
    assert ExecuteOrders(sorted, SOURCE, current, 0, now) == Ok(sorted);
    assert ExecuteOrders(sorted, SOURCE, current, 1, now) == Ok(sorted);
    hide Book6;
    assert ExecuteOrders(sorted, SOURCE, current, 2, now) == Ok(Book6());
  }

  // ---------- The replay ----------

  /** The days of the replay, from the one before its range on. */
  function RunDays(n: nat): seq<Session> {
    seq(n, k requires 0 <= k < n => Day(FIRST_DAY + k))
  }

  const SESSIONS_RUN: nat := 20

  lemma {:induction false} DaysInRange(n: nat)
    requires 0 < n
    ensures LastBefore(Days(n), FIRST_DAY) == START
    ensures Filter(Days(n), InRange(Input())) == RunDays(if n <= SESSIONS_RUN then n - 1 else SESSIONS_RUN)
  {
    assert Days(n)[n - 1] == Day(FIRST_DAY - 2 + n);
    if n == 1 {
      assert Days(1)[..0] == [];
    } else {
      DaysInRange(n - 1);
      assert Days(n)[..n - 1] == Days(n - 1);
    }
  }

  lemma WarmedUp()
    ensures Warm(Input(), START)
  {
    Known(FIRST_DAY - 1, DecisionTime(START));
    hide SelectSnapshot;
    FilterAll(Bars(FIRST_DAY - 1), WarmBars(NAME, FIRST_DAY));
  }

  lemma DaysAscend(n: nat)
    ensures forall i, j :: 0 <= i < j < |Days(n)| ==> !ByOpen()(Days(n)[j], Days(n)[i])
  {
    forall i, j | 0 <= i < j < |Days(n)|
      ensures !ByOpen()(Days(n)[j], Days(n)[i])
    {
      assert Days(n)[i] == Day(FIRST_DAY - 1 + i) && Days(n)[j] == Day(FIRST_DAY - 1 + j);
    }
  }

  /** The replay is admitted: its sessions are known and there are bars enough before them. */
  lemma Admitted()
    ensures Admit(Input()) == Ok([START] + RunDays(SESSIONS_RUN))
    ensures ReplayDays(Input()) == [START] + RunDays(SESSIONS_RUN)
  {
    DaysAscend(SESSIONS);
    SortSorted(Days(SESSIONS), ByOpen());
    DaysInRange(SESSIONS);
    WarmedUp();
    Policy(CASH);
    hide Sort;
    hide Filter;
    hide LastBefore;
    hide Warm;
    hide StrategyParameters.Valid;
    hide Days;
  }

  lemma SecondSessionPlan()
    ensures PlannedAt(Book3(), Input(), BUYING) == [EXIT, REDUCTION]
    ensures OpenSession(Book3(), Input(), BUYING, SELLING) == Ok(Book5())
  {
    FirstDays();
    NoSales(Book3().ledger, {});
    QuietReconcile(Book3(), Decision(), DecisionTime(BUYING), {NAME});
    SellsPlanned();
    OneNameIsSoldTwice();
    CloseNav();
    hide SelectSnapshot;
    hide Reconcile;
    hide PlanSession;
    hide BuildRebalance;
    hide ComputeNAV;
    hide Book5;
    assert EvaluationOf(Input(), Decision()) == Ok(Evaluation(true, [LEAVE]));
    assert PlanInput(Book3(), Decision(), Input(), Evaluation(true, [LEAVE]), PEAK) == Leaving();
    assert !Unresolved(Book3().orders);
  }

  lemma QuietOpening(now: int)
    ensures Reconcile(Book5(), Data(DecisionTime(SELLING), FIRST_DAY + 1), now, {NAME}) == Ok(Book5())
  {
    NoSales(Book5().ledger, {});
    hide Reconcile;
    QuietReconcile(Book5(), Data(DecisionTime(SELLING), FIRST_DAY + 1), now, {NAME});
  }

  lemma SecondSessionExecuted()
    ensures Executed(Book3(), Input(), BUYING, SELLING) == Ok(Book7())
  {
    SecondSessionPlan();
    Known(FIRST_DAY + 1, DecisionTime(SELLING));
    QuietOpening(SELLING.openAt);
    SellsExecuted();
    hide SelectSnapshot;
    hide OpenSession;
    hide Reconcile;
    hide Execute;
    hide Book3;
    hide Book5;
    hide Book7;
    hide Data;
  }

  lemma FirstSessionRuns(days: seq<Session>)
    requires |days| > 1 && days[0] == START && days[1] == BUYING
    ensures RunSessions(Input(), days, 1) == Ok(Book3())
  {
    FirstSession();
    hide RunSession;
    hide Book3;
    assert RunSessions(Input(), days, 0) == Ok(NewBook(CASH));
  }

  lemma BothFilled()
    ensures var b := Book7();
      && |b.orders| == 3 && IsFilledSell(b.orders[1]) && IsFilledSell(b.orders[2]) && b.orders[1].id == b.orders[2].id
      && FillKey(b.orders[1].id) !in b.settled
  {
    SellsClosed();
    hide CloseFilled;
    assert Closing(Filled, Filled)[1] == Exiting(Filled) && Closing(Filled, Filled)[2] == Reducing(Filled);
    assert Book7().settled == Book3().settled == {};
  }

  lemma SecondSessionStops()
    requires SalesMatch(Book3())
    ensures RunSession(Book3(), Input(), BUYING, SELLING).Err?
  {
    SecondSessionExecuted();
    BothFilled();
    var source, now := Input().source, DecisionTime(SELLING);
    assert Input().universe == {NAME};
    hide *;
    ExecutedMatches(Book3(), Input(), BUYING, SELLING);
    FilledTwiceIsStuck(Book7(), 1, 2, SelectSnapshot(source, now), now, {NAME});
    if RunSession(Book3(), Input(), BUYING, SELLING).Ok? {
      SessionEnds(Book3(), Input(), BUYING, SELLING);
    }
  }

  lemma {:induction false} StoppedForGood(input: ReplayInput, days: seq<Session>, n: nat, m: nat)
    requires n <= m < |days| && RunSessions(input, days, n).Err?
    ensures RunSessions(input, days, m).Err?
  {
    hide RunSession;
    if n < m {
      StoppedForGood(input, days, n, m - 1);
    }
  }

  /** An admitted replay that gets through its first session, sells one name twice in the plan of its second, and stops
      there for good. */
  lemma TwoSellsStopTheReplay(n: nat)
    requires 2 <= n <= SESSIONS_RUN
    ensures Admit(Input()) == Ok(ReplayDays(Input())) && |ReplayDays(Input())| == SESSIONS_RUN + 1
    ensures var first := RunSessions(Input(), ReplayDays(Input()), 1);
      first.Ok? && PlannedAt(first.value, Input(), ReplayDays(Input())[1]) == [EXIT, REDUCTION]
    ensures RunSessions(Input(), ReplayDays(Input()), n).Err?
  {
    Admitted();
    var days := ReplayDays(Input());
    assert days[1] == RunDays(SESSIONS_RUN)[0] == BUYING && days[2] == RunDays(SESSIONS_RUN)[1] == SELLING;
    hide ReplayDays;
    hide Admit;
    hide RunDays;
    hide PlannedAt;
    hide SalesMatch;
    hide RunSession;
    FirstSessionRuns(days);
    SecondSessionPlan();
    hide Book3;
    RunKeepsNumbers(Input(), days, 1);
    SecondSessionStops();
    assert RunSessions(Input(), days, 2).Err?;
    StoppedForGood(Input(), days, 2, n);
  }
}
