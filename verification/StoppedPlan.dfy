// The second session of that replay: its plan sells the name twice, and both sells are issued under one number.
module StoppedPlan {
  import opened Outcomes
  import opened Money
  import opened Sizing
  import opened Domain
  import opened Calendars
  import opened Lists
  import opened Ledger
  import opened Snapshots
  import opened Risk
  import opened Rebalance
  import opened Execution
  import opened Replay
  import BookEvents
  import opened StoppedData
  import opened StoppedEntry

  // ---------- The plan of the second session ----------

  const EXIT := PlannedOrder(NAME, Sell, ExitSignal, 38)
  const REDUCTION := PlannedOrder(NAME, Sell, ReduceSingleRisk, 43)
  const TEN := 10 * DOLLAR
  const PRICES := map[NAME := TEN]
  const CATALOG := map[NAME := STOCK]

  function Decision(): Snapshot {
    Data(DecisionTime(BUYING), FIRST_DAY)
  }

  function Leaving(): PortfolioInput {
    PortfolioInput(Owner(90_089, 0), [Position(NAME, 100, 0, 9_911)], [BUY.(state := Filled)], Decision(),
                   Evaluation(true, [LEAVE]), DEFAULT_POLICY, PEAK, PEAK, 0, map[], PARAMETERS)
  }

  function Holding(shares: int, turnover: int, orders: seq<PlannedOrder>, blocked: set<int>): Draft {
    Draft([Position(NAME, shares, 0, 9_911)], turnover, 90_089, orders, [], blocked, map[], 0)
  }

  const WHOLE := Holding(100, 0, [], {})
  const REST := Holding(62, 38_000, [EXIT], {NAME})
  const KEPT := Holding(19, 81_000, [EXIT, REDUCTION], {NAME})

  lemma ExitLimits()
    ensures MoneyLimit(PEAK, 0.1) == 19_008 && MoneyLimit(PEAK, 0.2) == 38_017
    ensures MoneyLimit(PEAK, 0.3) == 57_026 && MoneyLimit(PEAK, 0.8) == 152_071
  {
  }

  /** A sell of the only row: at most its shares, and what the turnover allows unless it reduces risk. */
  lemma SellSized(d: Draft, shares: int, quantity: int, reason: Reason, size: int)
    requires d.positions == [Position(NAME, shares, 0, 9_911)] && 0 < quantity <= shares <= 100
    requires 0 <= d.turnover <= 38_017
    requires MaxWholeQuantity(shares, SellTest(d, reason)) == size
    ensures var r := ValidateOrder(SellRequest(Leaving(), d, 0, TEN, quantity, reason));
      r.Ok? && r.value.maxQuantity == size
  {
    SellChecked(d, shares, quantity, reason);
    hide MaxWholeQuantity;
    hide SellTest;
    hide OrderSizing;
    hide Leaving;
  }

  function SellTest(d: Draft, reason: Reason): SizeTest {
    if EmergencySell(reason) then Unlimited else GrossWithin(TEN, 38_017 - d.turnover)
  }

  lemma OneRowFree(p: Position)
    requires 0 <= p.reservedQuantity <= p.quantity
    ensures FreeShares([p], p.instrument) == Ok(p.quantity - p.reservedQuantity)
  {
    assert [p][..0] == [];
  }

  /** A sell is sized to its free shares, within the turnover left unless it reduces risk. */
  lemma SellCheck(r: RiskInput, left: int, available: int)
    requires r.side == Sell && r.instrument == NAME && 0 < r.quantity <= MAX_ORDER_QUANTITY && r.price > 0
    requires r.nav > 0 && r.peakNav >= 0 && r.account.initialCash >= 0 && r.sessionTurnover >= 0 && r.policy.Valid()
    requires Quotes(r.snapshot, r.prices) == Ok(PRICES) && InstrumentsById(r.snapshot.instruments) == CATALOG
    requires TurnoverAfter(MoneyLimit(r.nav, r.policy.turnoverLimit) - r.sessionTurnover, r.orders,
                           PRICES[NAME := r.price], r.exclude, r.targetOpenAt) == Ok(left)
    requires FreeShares(r.positions, NAME) == Ok(available - OwnShares(r.orders, r.exclude))
    requires 0 <= available <= MAX_ORDER_QUANTITY
    ensures OrderSizing(r)
         == Ok(Sized(available, if EmergencySell(r.reason) then Unlimited else GrossWithin(r.price, NotBelowZero(left)),
                                       RiskLimitExceeded))
  {
    hide Quotes;
    hide InstrumentsById;
    hide MoneyLimit;
    hide RiskPolicy.Valid;
    hide DrawdownReached;
    hide FreeShares;
    hide TurnoverAfter;
    hide OwnShares;
  }

  lemma SellChecked(d: Draft, shares: int, quantity: int, reason: Reason)
    requires d.positions == [Position(NAME, shares, 0, 9_911)] && 0 < quantity <= shares <= 100
    requires 0 <= d.turnover <= 38_017
    ensures OrderSizing(SellRequest(Leaving(), d, 0, TEN, quantity, reason))
         == Ok(Sized(shares, SellTest(d, reason), RiskLimitExceeded))
  {
    var request := SellRequest(Leaving(), d, 0, TEN, quantity, reason);
    CloseQuotes();
    Catalog();
    ExitLimits();
    Policy(PEAK);
    OneRowFree(request.positions[0]);
    hide Quotes;
    hide InstrumentsById;
    hide MoneyLimit;
    hide RiskPolicy.Valid;
    hide FreeShares;
    hide OrderSizing;
    SellCheck(request, 38_017 - d.turnover, shares);
  }

  lemma LargestExit()
    ensures MaxWholeQuantity(100, SellTest(WHOLE, ExitSignal)) == 38
  {
    var test := GrossWithin(TEN, 38_017);
    assert Fits(test, 38) && !Fits(test, 39);
    Largest(100, test, 38);
    hide MaxWholeQuantity;
  }

  lemma SoldOff(shares: int, size: int, turnover: int)
    requires 0 < size <= shares <= 100 && 0 <= turnover <= 100_000
    ensures GrossValue(TEN, size) == Ok(1000 * size) && AddMoney(turnover, 1000 * size) == Ok(turnover + 1000 * size)
    ensures [Position(NAME, shares, 0, 9_911)][0 := Position(NAME, shares - size, 0, 9_911)]
         == [Position(NAME, shares - size, 0, 9_911)]
    ensures [] + [EXIT] == [EXIT] && [EXIT] + [REDUCTION] == [EXIT, REDUCTION]
    ensures {} + {NAME} == {NAME} && {NAME} + {NAME} == {NAME}
  {
  }

  /** The exit is cut short by the turnover limit. */
  lemma ExitSold()
    ensures AppendSell(Leaving(), PRICES, WHOLE, 0, 100, ExitSignal) == Ok(REST)
  {
    hide MaxWholeQuantity;
    hide SellTest;
    hide SellRequest;
    hide ValidateOrder;
    hide Leaving;
    LargestExit();
    SellSized(WHOLE, 100, 100, ExitSignal, 38);
    SoldOff(100, 38, 0);
  }

  lemma RowExposure(shares: int)
    requires 0 < shares <= 100
    ensures PortfolioExposure([Position(NAME, shares, 0, 9_911)], [], PRICES, CATALOG, None)
         == Ok(Exposure(1000 * shares, map[NAME := 1000 * shares], map[1 := 1000 * shares]))
  {
    var rows := [Position(NAME, shares, 0, 9_911)];
    assert rows[..0] == [];
    assert HoldingsExposure(rows[..0], PRICES, CATALOG) == Ok(NO_EXPOSURE);
    assert GrossValue(TEN, shares) == Ok(1000 * shares);
  }

  lemma ReductionAppended()
    ensures AppendSell(Leaving(), PRICES, REST, 0, 43, ReduceSingleRisk) == Ok(KEPT)
  {
    assert Fits(Unlimited, 62);
    Largest(62, Unlimited, 62);
    SellSized(REST, 62, 43, ReduceSingleRisk, 62);
    hide MaxWholeQuantity;
    hide ValidateOrder;
    hide Leaving;
    SoldOff(62, 43, 38_000);
  }

  /** What is left is still too much of one name, and the reduction sells it again. */
  lemma ReductionSold()
    ensures ReduceStep(Leaving(), PRICES, CATALOG, REST, 0, SingleCap) == Ok(KEPT)
  {
    ReductionAppended();
    RowExposure(62);
    ExitLimits();
    var test := GrossWithin(TEN, 19_008);
    assert Fits(test, 19) && !Fits(test, 20);
    Largest(62, test, 19);
    hide AppendSell;
    hide MaxWholeQuantity;
    hide MoneyLimit;
    hide PortfolioExposure;
    assert At(PRICES, NAME) == TEN;
  }

  lemma WithinCaps(cap: Cap)
    requires cap != SingleCap
    ensures ReduceStep(Leaving(), PRICES, CATALOG, KEPT, 0, cap) == Ok(KEPT)
  {
    RowExposure(19);
    ExitLimits();
    hide MoneyLimit;
    hide PortfolioExposure;
    hide AppendSell;
    hide KeptQuantity;
  }

  lemma OneRowPass(d: Draft, cap: Cap)
    requires |d.positions| == 1
    ensures ReducePass(Leaving(), PRICES, CATALOG, d, 1, cap) == ReduceStep(Leaving(), PRICES, CATALOG, d, 0, cap)
  {
    assert ReducePass(Leaving(), PRICES, CATALOG, d, 0, cap) == Ok(d);
    hide ReduceStep;
  }

  const LEAVING := map[NAME := LEAVE]

  lemma NoStop()
    ensures ExitStep(Leaving(), PRICES, LEAVING, WHOLE, 0, true) == Ok(WHOLE)
  {
    assert GrossValue(TEN, 100) == Ok(100_000);
    assert !DrawdownReached(100_000, 9_911, 0.1);
    hide AppendSell;
    hide DrawdownReached;
  }

  lemma ExitStepped()
    ensures ExitStep(Leaving(), PRICES, LEAVING, WHOLE, 0, false) == Ok(REST)
  {
    ExitSold();
    hide AppendSell;
    hide LossReached;
    hide Decision;
    assert GrossValue(TEN, 100) == Ok(100_000);
    assert LEAVING[NAME].score < Leaving().parameters.exitScore;
  }

  lemma Ranked()
    ensures Sort([LEAVE], ByScore()) == [LEAVE] && SignalsById([LEAVE]) == LEAVING && StartDraft(Leaving()) == WHOLE
  {
    SortSorted([LEAVE], ByScore());
    SortSorted([Position(NAME, 100, 0, 9_911)], ByInstrument());
    hide Sort;
    assert [LEAVE][..0] == [];
    assert SignalsById([LEAVE][..0]) == map[];
  }

  lemma Exits()
    ensures AfterExits(Leaving(), PRICES) == Ok(REST)
  {
    Ranked();
    NoStop();
    ExitStepped();
    hide ExitStep;
    hide Sort;
    hide SignalsById;
    hide StartDraft;
    assert ExitPass(Leaving(), PRICES, LEAVING, WHOLE, 0, true) == Ok(WHOLE);
    assert ExitPass(Leaving(), PRICES, LEAVING, WHOLE, 1, true) == Ok(WHOLE);
    assert ExitPass(Leaving(), PRICES, LEAVING, WHOLE, 0, false) == Ok(WHOLE);
  }

  lemma Reductions()
    ensures AfterReductions(Leaving(), PRICES, CATALOG) == Ok(KEPT)
  {
    Exits();
    ReductionSold();
    WithinCaps(IndustryCap);
    WithinCaps(StockCap);
    OneRowPass(REST, SingleCap);
    OneRowPass(KEPT, IndustryCap);
    OneRowPass(KEPT, StockCap);
    hide AfterExits;
    hide ReduceStep;
    hide ReducePass;
  }

  lemma ExitDraft()
    ensures FinalDraft(Leaving(), PRICES, CATALOG) == Ok(ReadyToBuy(KEPT))
  {
    Reductions();
    SortSorted([LEAVE], ByScore());
    hide AfterReductions;
    hide Sort;
    var ready := ReadyToBuy(KEPT);
    assert BuyPass(Leaving(), PRICES, ready, [LEAVE], 0) == Ok(ready);
    assert BuyStep(Leaving(), PRICES, ready, LEAVE) == Ok(ready);
    assert BuyPass(Leaving(), PRICES, ready, [LEAVE], 1) == Ok(ready);
  }

  /** A plan that sells one name twice: an exit cut short by the turnover limit, then a risk reduction of the rest. */
  lemma OneNameIsSoldTwice()
    ensures BuildRebalance(Leaving()) == Ok(RebalancePlan([EXIT, REDUCTION], false, []))
    ensures EXIT.instrument == REDUCTION.instrument && EXIT.side == REDUCTION.side == Sell
  {
    CloseQuotes();
    Catalog();
    ExitDraft();
    Policy(PEAK);
    hide FinalDraft;
    hide Quotes;
    hide InstrumentsById;
    hide DrawdownReached;
    hide RiskPolicy.Valid;
    hide StrategyParameters.Valid;
    assert !Unresolved(Leaving().orders);
    assert ReadyToBuy(KEPT).notes + [] == [];
  }

  // ---------- Its orders ----------

  function SellOrder(state: OrderState, reason: Reason, quantity: int): Order {
    Order(ReplayId(FIRST_DAY + 1, NAME, Sell), REPLAY_ACCOUNT, NAME, Sell, state, reason, quantity, quantity, 10_000, 0,
          SELLING.openAt, Day(FIRST_DAY + 2).closeAt, DecisionTime(BUYING), 1)
  }

  function Exiting(state: OrderState): Order {
    SellOrder(state, ExitSignal, 38)
  }

  function Reducing(state: OrderState): Order {
    SellOrder(state, ReduceSingleRisk, 43)
  }

  lemma OrderSized(p: PlannedOrder, cash: int)
    requires p == EXIT || p == REDUCTION
    ensures SizeOrder(Decision(), SELLING, Day(FIRST_DAY + 2).closeAt, p, cash)
         == Ok(Some(SellOrder(Pending, p.reason, p.quantity)))
  {
    FilterAll(Bars(FIRST_DAY), OfInstrument(NAME));
    Capacity(FIRST_DAY);
    hide PreviousVolumeCapacity;
    hide Filter;
  }

  /** A book after one of its sells has been issued. */
  function AfterIssue(b: Book, o: Order, reserved: int): Book {
    b.(positions := [Position(NAME, 100, reserved, 9_911)], orders := b.orders + [o],
       ledger := b.ledger + [ReserveEntry(b.account, o)])
  }

  lemma SellIssued(b: Book, o: Order, reserved: int)
    requires o == Exiting(Pending) || o == Reducing(Pending)
    requires b.account == Owner(90_089, 0) && b.positions == [Position(NAME, 100, reserved, 9_911)]
    requires 0 <= reserved <= 100 - o.quantity
    ensures Issue(b, o) == Ok(AfterIssue(b, o, reserved + o.quantity))
  {
    BookEvents.SingleReservation(b.account, b.positions, o);
    hide ReserveOrders;
    assert b.account.(balances := b.account.balances) == b.account;
    assert b.positions[1..] == [];
    assert MoveShares(b.positions, NAME, o.quantity) == [Position(NAME, 100, reserved + o.quantity, 9_911)];
  }

  function Book4(): Book {
    AfterIssue(Book3(), Exiting(Pending), 38)
  }

  function Book5(): Book {
    AfterIssue(Book4(), Reducing(Pending), 81)
  }

  lemma SellsIssued()
    ensures IssueOrders(Book3(), Decision(), SELLING, Day(FIRST_DAY + 2).closeAt, [EXIT, REDUCTION], 2)
         == Ok((Book5(), 90_089))
  {
    OrderSized(EXIT, 90_089);
    OrderSized(REDUCTION, 90_089);
    SellIssued(Book3(), Exiting(Pending), 0);
    SellIssued(Book4(), Reducing(Pending), 38);
    hide SizeOrder;
    hide Issue;
    hide Decision;
    hide ReserveEntry;
    var expires, planned := Day(FIRST_DAY + 2).closeAt, [EXIT, REDUCTION];
    assert IssueOrders(Book3(), Decision(), SELLING, expires, planned, 0) == Ok((Book3(), 90_089));
    assert IssueOrders(Book3(), Decision(), SELLING, expires, planned, 1) == Ok((Book4(), 90_089));
  }

  /** The plan of the second session is issued as two sells under one number. */
  lemma SellsPlanned()
    ensures PlanSession(Book3(), Decision(), Input(), SELLING) == Ok(Book5())
  {
    CloseNav();
    OneNameIsSoldTwice();
    Following(FIRST_DAY + 1, SELLING.closeAt);
    SellsIssued();
    hide ComputeNAV;
    hide BuildRebalance;
    hide NextSession;
    hide IssueOrders;
    hide Book5;
    assert EvaluationOf(Input(), Decision()) == Ok(Evaluation(true, [LEAVE]));
    assert PlanInput(Book3(), Decision(), Input(), Evaluation(true, [LEAVE]), PEAK) == Leaving();
  }
}
