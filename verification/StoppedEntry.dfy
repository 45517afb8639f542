// The first session of a replay that stops: its plan buys a name, and the buy is filled in full.
module StoppedEntry {
  import opened Outcomes
  import opened Money
  import opened Sizing
  import opened Domain
  import opened Calendars
  import opened Lists
  import opened Ledger
  import opened Snapshots
  import opened Risk
  import opened Rebalance
  import opened Execution
  import opened Replay
  import BookEvents
  import opened BookMeaning
  import opened StoppedData

  // ---------- The replay ----------

  const CASH := 100_000
  const ENTER := Signal(NAME, 100.0, 1, LowRisk)
  const LEAVE := Signal(NAME, 0.0, 1, LowRisk)
  const PARAMETERS := StrategyParameters([1.0, 0.0, 0.0, 0.0, 0.0], 60.0, 40.0, 0.0, 10)
  const START := Day(FIRST_DAY - 1)
  const BUYING := Day(FIRST_DAY)
  const SELLING := Day(FIRST_DAY + 1)

  /** The name is to be entered until its price has jumped, and left after that. */
  function Score(s: Snapshot): Result<Evaluation> {
    Ok(Evaluation(true, [if s.asOf < DecisionTime(BUYING) then ENTER else LEAVE]))
  }

  function Input(): ReplayInput {
    ReplayInput(SOURCE, {NAME}, Score, PARAMETERS, CASH, FIRST_DAY, LAST_DAY)
  }

  function Owner(available: int, reserved: int): Account {
    Account(REPLAY_ACCOUNT, 0, 0, Balances(available, reserved, 0, 0), CASH, 0, true, DEFAULT_POLICY, None, 0)
  }

  /** Nothing to settle and no action: a reconciliation leaves the book as it is. */
  lemma QuietReconcile(b: Book, s: Snapshot, now: int, relevant: set<int>)
    requires Sales(b) == [] && s.actions == []
    ensures Reconcile(b, s, now, relevant) == Ok(b)
  {
    assert SettledKeys([]) == {};
    assert b.ledger + [] == b.ledger && b.settled + {} == b.settled;
    assert b.account.(balances := b.account.balances) == b.account;
    assert Settle(b, s.calendar, now) == Ok(b);
    assert Sort(s.actions, ByEffect()) == [];
  }

  lemma {:induction false} NoSales(ledger: seq<LedgerEntry>, settled: set<EventKey>)
    requires forall i :: 0 <= i < |ledger| ==> ledger[i].kind != SellFill
    ensures Filter(ledger, AwaitingSettlement(settled)) == []
  {
    if ledger != [] {
      NoSales(ledger[..|ledger| - 1], settled);
    }
  }

  /** A size that fits while the next one does not is the one found. */
  lemma Largest(limit: int, test: SizeTest, size: int)
    requires 0 <= size <= limit && (size > 0 ==> Fits(test, size)) && (size < limit ==> !Fits(test, size + 1))
    ensures MaxWholeQuantity(limit, test) == size
  {
    SizingIsOptimal(limit, test);
    var found := MaxWholeQuantity(limit, test);
    hide MaxWholeQuantity;
    hide Fits;
    if found > size {
      UpToMaximumFits(limit, test, size + 1);
    }
  }

  lemma Policy(nav: int)
    ensures DEFAULT_POLICY.Valid() && PARAMETERS.Valid()
    ensures nav > 0 ==> !DrawdownReached(nav, nav, 0.15)
  {
  }

  // ---------- The first session: a buy ----------

  const ENTRY := PlannedOrder(NAME, Buy, EntrySignal, 100)

  lemma EntryLimits()
    ensures MoneyLimit(CASH, 0.1) == 10_000 && MoneyLimit(CASH, 0.3) == 30_000 && MoneyLimit(CASH, 0.8) == 80_000
    ensures MoneyLimit(CASH, 0.2) == 20_000 && MoneyLimit(CASH, 0.0) == 0
  {
  }

  function Planning(): PortfolioInput {
    PlanInput(NewBook(CASH), Data(DecisionTime(START), FIRST_DAY - 1), Input(), Evaluation(true, [ENTER]), CASH)
  }

  const EMPTY := Draft([], 0, CASH, [], [], {}, map[], 0)

  lemma StartQuotes()
    ensures Quotes(Data(DecisionTime(START), FIRST_DAY - 1), map[]) == Ok(map[NAME := DOLLAR])
    ensures InstrumentsById([STOCK]) == map[NAME := STOCK]
  {
    Quoted(FIRST_DAY - 1, DecisionTime(START), map[]);
    Catalog();
    assert map[NAME := DOLLAR] + map[] == map[NAME := DOLLAR];
  }

  lemma EntryAllowed()
    ensures var r := ValidateOrder(BuyRequest(Planning(), EMPTY, NAME, DOLLAR, 100));
      r.Ok? && r.value.maxQuantity == 100
  {
    var request := BuyRequest(Planning(), EMPTY, NAME, DOLLAR, 100);
    StartQuotes();
    EntryLimits();
    Policy(CASH);
    var test := BuyWithin(DOLLAR, 10_000, 30_000, 80_000, 20_000, CASH);
    assert Fits(test, 100) && !Fits(test, 101);
    Largest(MAX_ORDER_QUANTITY, test, 100);
    hide MaxWholeQuantity;
    hide Quotes;
    hide InstrumentsById;
    hide MoneyLimit;
    hide DrawdownReached;
    hide RiskPolicy.Valid;
    hide StrategyParameters.Valid;
    assert map[NAME := DOLLAR][NAME := DOLLAR] == map[NAME := DOLLAR];
    assert request.evaluation.signals[0] == ENTER;
    assert EligibleSignal(request, request.evaluation.signals[0]);
    assert OrderSizing(request) == Ok(Sized(MAX_ORDER_QUANTITY, test, RiskLimitExceeded));
  }

  lemma EntrySized()
    ensures BuySize(Planning(), DOLLAR, EMPTY, NAME) == Ok(100)
  {
    EntryAllowed();
    EntryLimits();
    var test := GrossWithin(DOLLAR, 10_000);
    assert Fits(test, 100) && !Fits(test, 101);
    Largest(MAX_ORDER_QUANTITY, test, 100);
    hide ValidateOrder;
    hide MaxWholeQuantity;
    hide MoneyLimit;
  }

  const BOUGHT := Draft([Position(NAME, 100, 0, 0)], 10_000, CASH - 10_001, [ENTRY], [], {}, map[NAME := 0], 1)

  lemma EntryBought()
    ensures SoundHeld(EMPTY) && AppendBuy(EMPTY, NAME, DOLLAR, 100) == Ok(BOUGHT)
  {
    assert [] + [Position(NAME, 100, 0, 0)] == [Position(NAME, 100, 0, 0)];
    assert [] + [ENTRY] == [ENTRY];
    assert PurchaseCost(DOLLAR, 100) == Ok(10_001) && GrossValue(DOLLAR, 100) == Ok(10_000);
  }

  lemma EntryDraft()
    ensures FinalDraft(Planning(), map[NAME := DOLLAR], map[NAME := STOCK]) == Ok(BOUGHT)
  {
    var input, prices, catalog := Planning(), map[NAME := DOLLAR], map[NAME := STOCK];
    EntrySized();
    EntryBought();
    hide BuySize;
    hide AppendBuy;
    SortSorted([ENTER], ByScore());
    assert StartDraft(input) == EMPTY;
    assert AfterReductions(input, prices, catalog) == Ok(EMPTY);
    assert ReadyToBuy(EMPTY) == EMPTY;
    assert Candidate(input, EMPTY, ENTER);
    assert BuyStep(input, prices, EMPTY, ENTER) == Ok(BOUGHT);
    assert BuyPass(input, prices, EMPTY, [ENTER], 0) == Ok(EMPTY);
    assert BuyPass(input, prices, EMPTY, [ENTER], 1) == Ok(BOUGHT);
  }

  lemma EntryPlan()
    ensures BuildRebalance(Planning()) == Ok(RebalancePlan([ENTRY], false, []))
  {
    StartQuotes();
    EntryDraft();
    Policy(CASH);
    hide FinalDraft;
    hide Quotes;
    hide InstrumentsById;
    hide DrawdownReached;
    hide RiskPolicy.Valid;
    hide StrategyParameters.Valid;
    assert BOUGHT.notes == [];
    assert BOUGHT.notes + [] == [];
  }

  // ---------- Its order ----------

  const BUY := Order(ReplayId(FIRST_DAY, NAME, Buy), REPLAY_ACCOUNT, NAME, Buy, Pending, EntrySignal, 100, 0, 10_000,
                     10_012, BUYING.openAt, SELLING.closeAt, DecisionTime(START), 1)

  function Book1(): Book {
    NewBook(CASH).(account := Owner(89_988, 10_012), orders := [BUY], ledger := [ReserveEntry(Owner(CASH, 0), BUY)])
  }

  lemma BuySized()
    ensures SizeOrder(Data(DecisionTime(START), FIRST_DAY - 1), BUYING, SELLING.closeAt, ENTRY, CASH) == Ok(Some(BUY))
  {
    var bars := Bars(FIRST_DAY - 1);
    FilterAll(bars, OfInstrument(NAME));
    Capacity(FIRST_DAY - 1);
    assert Reservable(DOLLAR, 100, CASH) && ReservationCost(DOLLAR, 100) == Ok(10_012);
    WholeOrderFits(DOLLAR, 0, 100, CASH);
    hide PreviousVolumeCapacity;
    hide SizeToCash;
    hide ReservationCost;
    assert LastClose(bars) == DOLLAR;
  }

  /** When the whole order can be paid for, the search comes back with all of it. */
  lemma {:induction false} WholeOrderFits(close: int, low: int, high: int, cash: int)
    requires 0 <= low <= high && (low < high ==> Reservable(close, high, cash))
    ensures CashSearch(close, low, high, cash) == Ok(high)
    decreases high - low
  {
    if low < high {
      var mid := low + (high - low + 1) / 2;
      SmallerReservable(close, mid, high, cash);
      hide ReservationCost;
      WholeOrderFits(close, mid, high, cash);
    }
  }

  lemma BuyIssued()
    ensures Issue(NewBook(CASH), BUY) == Ok(Book1())
  {
    SingleReserve(Owner(CASH, 0), BUY);
    assert NewBook(CASH).account == Owner(CASH, 0);
    assert ReserveOne(Owner(CASH, 0), [], BUY)
           == Ok(Mutation(Owner(89_988, 10_012), [], [ReserveEntry(Owner(CASH, 0), BUY)]));
    hide ReserveOne;
    hide ReserveOrders;
    assert [] + [BUY] == [BUY] && [] + [ReserveEntry(Owner(CASH, 0), BUY)] == [ReserveEntry(Owner(CASH, 0), BUY)];
  }

  lemma SingleReserve(account: Account, o: Order)
    ensures ReserveOrders(account, [], [o]) == ReserveOne(account, [], o)
  {
    BookEvents.SingleReservation(account, [], o);
  }

  lemma StartNav()
    ensures ComputeNAV(NewBook(CASH).account, [], Data(DecisionTime(START), FIRST_DAY - 1), map[]) == Ok(CASH)
  {
    StartQuotes();
    hide Quotes;
  }

  /** The plan of the first session is issued as one buy. */
  lemma BuyPlanned()
    ensures PlanSession(NewBook(CASH), Data(DecisionTime(START), FIRST_DAY - 1), Input(), BUYING) == Ok(Book1())
  {
    var b, s := NewBook(CASH), Data(DecisionTime(START), FIRST_DAY - 1);
    StartNav();
    EntryPlan();
    Following(FIRST_DAY, BUYING.closeAt);
    BuySized();
    BuyIssued();
    hide ComputeNAV;
    hide BuildRebalance;
    hide NextSession;
    hide SizeOrder;
    hide Issue;
    hide Book1;
    assert EvaluationOf(Input(), s) == Ok(Evaluation(true, [ENTER]));
    assert IssueOrders(b, s, BUYING, SELLING.closeAt, [ENTRY], 0) == Ok((b, CASH));
    assert IssueOrders(b, s, BUYING, SELLING.closeAt, [ENTRY], 1) == Ok((Book1(), CASH - 10_012));
  }

  // ---------- Its fill ----------

  const OPENING := 990_990
  const WAITING := BUY.(state := AwaitingBar)
  const BUY_FILL := FillOfBuy(DecisionTime(BUYING))

  /** The fill of the buy, recorded at some time after its opening. */
  function FillOfBuy(at: int): Fill {
    Fill(BUY.id, REPLAY_ACCOUNT, NAME, Buy, EntrySignal, 100, OPENING, 9_910, 1, 10_012, 0, BUYING.openAt, at, 0)
  }

  function Waiting(): Book {
    Book1().(orders := [WAITING])
  }

  /** A book waiting for the opening of the buy, after the buy has been filled. */
  function AfterBuy(b: Book, at: int): Book {
    b.(account := Owner(90_089, 0), positions := [Position(NAME, 100, 0, 9_911)], orders := [BUY.(state := Filled)],
       ledger := b.ledger + [FillEntry(Owner(89_988, 10_012), FillOfBuy(at), Balances(101, -10_012, 0, 0))],
       fills := [FillOfBuy(at)])
  }

  function Book2(): Book {
    AfterBuy(Waiting(), DecisionTime(BUYING))
  }

  predicate WaitsForBuy(b: Book) {
    b.account == Owner(89_988, 10_012) && b.positions == [] && b.orders == [WAITING] && b.fills == []
  }

  /** What is known just before the opening of the first session, with the opening price. */
  lemma OpeningQuotes()
    ensures Quotes(Data(BUYING.openAt - 1, FIRST_DAY - 1), map[NAME := 990_000]) == Ok(map[NAME := 990_000])
  {
    Quoted(FIRST_DAY - 1, BUYING.openAt - 1, map[NAME := 990_000]);
    assert map[NAME := DOLLAR] + map[NAME := 990_000] == map[NAME := 990_000];
  }

  function BuyMatch(at: int): MatchInput {
    MatchInput(WAITING, 990_000, 10_000,
               PortfolioInput(Owner(89_988, 10_012), [], [WAITING], Data(BUYING.openAt - 1, FIRST_DAY - 1),
                              Evaluation(false, []), DEFAULT_POLICY, CASH, 0, 0, map[NAME := 990_000],
                              StrategyParameters([], 0.0, 0.0, 0.0, 0)),
               at)
  }

  /** An order does not count against itself. */
  lemma NothingCompetes(budget: int, orders: seq<Order>, prices: map<int, int>, catalog: map<int, Instrument>,
                        id: OrderId, at: int)
    requires forall k :: 0 <= k < |orders| ==> orders[k].id == id || orders[k].Terminal()
    ensures TurnoverAfter(budget, orders, prices, Some(id), at) == Ok(budget)
    ensures OrdersExposure(NO_EXPOSURE, orders, catalog, Some(id)) == Ok(NO_EXPOSURE)
  {
    if orders != [] {
      NothingCompetes(budget, orders[..|orders| - 1], prices, catalog, id, at);
    }
  }

  const BUY_TEST := BuyWithin(OPENING, 10_000, 30_000, 80_000, 20_000, 10_012)

  /** An order that was not planned is sized to its budget and to what the limits leave an empty portfolio. */
  lemma EmptySizing(r: RiskInput, prices: map<int, int>, catalog: map<int, Instrument>, industry: int, turnover: int,
                    cash: int)
    requires !r.automatic && r.budget == Some(cash) && cash > 0
    requires PortfolioExposure(r.positions, r.orders, prices, catalog, r.exclude) == Ok(NO_EXPOSURE)
    ensures Risk.BuySizing(r, prices, catalog, industry, turnover)
         == Ok(Sized(MAX_ORDER_QUANTITY,
                     BuyWithin(r.price, MoneyLimit(r.nav, r.policy.singleWeight),
                               MoneyLimit(r.nav, r.policy.industryWeight), MoneyLimit(r.nav, r.policy.stockWeight),
                               turnover, cash),
                     RiskLimitExceeded))
  {
    hide MoneyLimit;
    hide PortfolioExposure;
  }

  lemma BuySizing(at: int)
    ensures Risk.BuySizing(MatchRequest(BuyMatch(at), WAITING, OPENING), map[NAME := OPENING], map[NAME := STOCK], 1,
                           20_000)
         == Ok(Sized(MAX_ORDER_QUANTITY, BUY_TEST, RiskLimitExceeded))
  {
    hide MoneyLimit;
    hide TurnoverAfter;
    hide OrdersExposure;
    hide Risk.BuySizing;
    hide RiskPolicy.Valid;
    hide Data;
    var request := MatchRequest(BuyMatch(at), WAITING, OPENING);
    NothingCompetes(20_000, request.orders, map[NAME := OPENING], map[NAME := STOCK], WAITING.id, BUYING.openAt);
    EntryLimits();
    EmptySizing(request, map[NAME := OPENING], map[NAME := STOCK], 1, 20_000, 10_012);
  }

  lemma BuyLargest()
    ensures MaxWholeQuantity(MAX_ORDER_QUANTITY, BUY_TEST) == 100
  {
    assert Fits(BUY_TEST, 100) && !Fits(BUY_TEST, 101);
    Largest(MAX_ORDER_QUANTITY, BUY_TEST, 100);
  }

  lemma BuyOrderSizing(at: int)
    ensures OrderSizing(MatchRequest(BuyMatch(at), WAITING, OPENING))
         == Ok(Sized(MAX_ORDER_QUANTITY, BUY_TEST, RiskLimitExceeded))
  {
    var request := MatchRequest(BuyMatch(at), WAITING, OPENING);
    OpeningQuotes();
    EntryLimits();
    Policy(CASH);
    Catalog();
    BuySizing(at);
    NothingCompetes(20_000, request.orders, map[NAME := OPENING], map[NAME := STOCK], WAITING.id, BUYING.openAt);
    assert map[NAME := 990_000][NAME := OPENING] == map[NAME := OPENING];
    hide Quotes;
    hide InstrumentsById;
    hide MoneyLimit;
    hide DrawdownReached;
    hide RiskPolicy.Valid;
    hide TurnoverAfter;
    hide OrdersExposure;
    hide Risk.BuySizing;
  }

  lemma BuyAllowed(at: int)
    ensures var r := ValidateOrder(MatchRequest(BuyMatch(at), WAITING, OPENING)); r.Ok? && r.value.maxQuantity == 100
  {
    BuyOrderSizing(at);
    BuyLargest();
    hide MaxWholeQuantity;
    hide OrderSizing;
  }

  lemma BuyMatched(at: int)
    requires at >= BUYING.openAt
    ensures MatchAtOpen(BuyMatch(at)) == Ok(FillResult(Some(FillOfBuy(at)), 0, NoReason))
  {
    BuyAllowed(at);
    hide ValidateOrder;
    assert SlippedPrice(990_000, Buy) == Ok(OPENING);
    assert GrossValue(OPENING, 100) == Ok(9_910) && TradeFee(9_910) == Ok(1);
  }

  lemma BuyOpened()
    ensures var current := Data(DecisionTime(BUYING), FIRST_DAY);
      && SelectSnapshot(SOURCE, DecisionTime(BUYING)) == current && HasOpening(current, WAITING)
      && OpeningPrices(current.bars, DateOf(BUYING.openAt)) == map[NAME := 990_000]
      && BarsOn(current.bars, DateOf(BUYING.openAt))[NAME].open == 990_000
      && SelectSnapshot(SOURCE, BUYING.openAt - 1) == Data(BUYING.openAt - 1, FIRST_DAY - 1)
  {
    DayOf(FIRST_DAY, BUYING.openAt);
    Known(FIRST_DAY, DecisionTime(BUYING));
    Known(FIRST_DAY - 1, BUYING.openAt - 1);
    LastBar(FIRST_DAY, DecisionTime(BUYING));
    hide SelectSnapshot;
    hide BarsOn;
    hide OpeningPrices;
  }

  lemma OpeningNav()
    ensures ComputeNAV(Owner(89_988, 10_012), [], Data(BUYING.openAt - 1, FIRST_DAY - 1), map[NAME := 990_000])
         == Ok(CASH)
  {
    OpeningQuotes();
    hide Quotes;
  }

  lemma BuyMatchedAtOpening(b: Book, at: int)
    requires WaitsForBuy(b) && at >= BUYING.openAt
    ensures OpeningMatch(b, WAITING, Data(BUYING.openAt - 1, FIRST_DAY - 1), map[NAME := 990_000], 990_000, 0, 0, at)
         == Ok(FillResult(Some(FillOfBuy(at)), 0, NoReason))
  {
    BuyMatched(at);
    OpeningNav();
    hide MatchAtOpen;
    hide ComputeNAV;
    assert [WAITING][..0] == [];
    assert SmallestCapacity([WAITING][..0], WAITING) == 10_000;
    assert SmallestCapacity([WAITING], WAITING) == 10_000;
  }

  lemma BuyApplied(at: int)
    ensures ApplyFill(Owner(89_988, 10_012), [], FillOfBuy(at))
         == Ok(Mutation(Owner(90_089, 0), [Position(NAME, 100, 0, 9_911)],
                        [FillEntry(Owner(89_988, 10_012), FillOfBuy(at), Balances(101, -10_012, 0, 0))]))
  {
    var row := Position(NAME, 0, 0, 0);
    assert FillEffect(row, FillOfBuy(at)) == Ok((Position(NAME, 100, 0, 9_911), Balances(101, -10_012, 0, 0)));
    assert [] + [row] == [row] && [row][0 := Position(NAME, 100, 0, 9_911)] == [Position(NAME, 100, 0, 9_911)];
    SortSorted([Position(NAME, 100, 0, 9_911)], ByInstrument());
    hide Sort;
  }

  lemma BuyFilled(b: Book, at: int)
    requires WaitsForBuy(b)
    ensures CloseFilled(b, 0, FillOfBuy(at), false) == Ok(AfterBuy(b, at))
  {
    BuyApplied(at);
    hide ApplyFill;
    hide FillEntry;
    assert [WAITING][0 := WAITING.(state := Filled)] == [BUY.(state := Filled)];
    assert [] + [FillOfBuy(at)] == [FillOfBuy(at)];
  }

  /** The buy of the first session is filled in full. */
  lemma BuyExecuted()
    ensures Execute(Book1(), SOURCE, Data(DecisionTime(BUYING), FIRST_DAY), DecisionTime(BUYING)) == Ok(Book2())
  {
    hide SelectSnapshot;
    hide HasOpening;
    hide OpeningPrices;
    hide BarsOn;
    hide OpeningMatch;
    hide CloseFilled;
    hide Sort;
    var now, current := DecisionTime(BUYING), Data(DecisionTime(BUYING), FIRST_DAY);
    BuyOpened();
    BuyMatchedAtOpening(Waiting(), now);
    BuyFilled(Waiting(), now);
    SortSorted([BUY], ByOpening());
    hide AfterBuy;
    assert [BUY][0 := WAITING] == [WAITING];
    assert Advance(Book1(), 0, now) == Waiting();
    assert ExecuteOrders(Book1(), SOURCE, current, 0, now) == Ok(Book1());
    assert ExecuteOrder(Book1(), SOURCE, current, 0, now) == Ok(Book2());
    assert ExecuteOrders(Book1(), SOURCE, current, 1, now) == Ok(Book2());
  }

  // ---------- Its close ----------

  const PEAK := 190_089

  function Book3(): Book {
    Book2().(peak := PEAK)
  }

  lemma CloseQuotes()
    ensures Quotes(Data(DecisionTime(BUYING), FIRST_DAY), map[]) == Ok(map[NAME := 10 * DOLLAR])
  {
    Quoted(FIRST_DAY, DecisionTime(BUYING), map[]);
    assert map[NAME := 10 * DOLLAR] + map[] == map[NAME := 10 * DOLLAR];
  }

  lemma CloseNav()
    ensures ComputeNAV(Owner(90_089, 0), [Position(NAME, 100, 0, 9_911)], Data(DecisionTime(BUYING), FIRST_DAY), map[])
         == Ok(PEAK)
  {
    CloseQuotes();
    hide Quotes;
    var rows, prices := [Position(NAME, 100, 0, 9_911)], map[NAME := 10 * DOLLAR];
    assert rows[..0] == [];
    assert AddHoldings(90_089, rows[..0], prices) == Ok(90_089);
    assert GrossValue(10 * DOLLAR, 100) == Ok(100_000);
    assert AddHoldings(90_089, rows, prices) == Ok(PEAK);
  }

  lemma FirstDays()
    ensures SelectSnapshot(SOURCE, DecisionTime(START)) == Data(DecisionTime(START), FIRST_DAY - 1)
    ensures SelectSnapshot(SOURCE, DecisionTime(BUYING)) == Data(DecisionTime(BUYING), FIRST_DAY)
  {
    Known(FIRST_DAY - 1, DecisionTime(START));
    Known(FIRST_DAY, DecisionTime(BUYING));
  }

  /** The first session ends with a hundred shares. */
  lemma FirstSession()
    ensures RunSession(NewBook(CASH), Input(), START, BUYING) == Ok(Book3())
  {
    var now, current := DecisionTime(BUYING), Data(DecisionTime(BUYING), FIRST_DAY);
    FirstDays();
    NoSales(Book1().ledger, {});
    NoSales(Book2().ledger, {});
    QuietReconcile(NewBook(CASH), Data(DecisionTime(START), FIRST_DAY - 1), DecisionTime(START), {NAME});
    QuietReconcile(Book1(), current, BUYING.openAt, {NAME});
    QuietReconcile(Book2(), current, now, {NAME});
    BuyPlanned();
    BuyExecuted();
    CloseNav();
    hide SelectSnapshot;
    hide Reconcile;
    hide PlanSession;
    hide Execute;
    hide ComputeNAV;
    hide Data;
  }
}
