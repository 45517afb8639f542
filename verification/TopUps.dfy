// Every holding that is rounded down with a rest can end a plan a cent over its limits, and no other holding can.
module TopUps {
  import opened Outcomes
  import opened Money
  import opened Sizing
  import opened Domain
  import opened Lists
  import opened Sums
  import opened Holdings
  import opened Calendars
  import opened Snapshots
  import opened Risk
  import opened Rebalance
  import opened RebalanceSteps
  import opened RebalanceCaps
  import opened RebalanceRounding

  // ---------- The account ----------

  const NAME := 1
  const OTHER := 2
  const CENT := 10_000
  const SECTOR := 1
  const HIGHEST_PRICE := 1_000_000_000_000
  const CLOSE := 20 * HALF_HOUR
  const POLICY := RiskPolicy(0.1, 0.1, 0.1, 0.15, 0.1, 0.2)
  const PARAMETERS := StrategyParameters([1.0, 0.0, 0.0, 0.0, 0.0], 60.0, 40.0, 0.0, 10)
  const ENTRY := Signal(NAME, 100.0, 1, LowRisk)
  const DATA := Snapshot(
    CLOSE, [Instrument(NAME, true, true, SECTOR), Instrument(OTHER, true, true, SECTOR)], [], [], [],
    Calendar(0, 2 * DAY, [Session(1, HALF_HOUR, CLOSE)], []))
  const CATALOG := map[NAME := Instrument(NAME, true, true, SECTOR), OTHER := Instrument(OTHER, true, true, SECTOR)]

  function Prices(price: int): map<int, int> {
    map[NAME := price, OTHER := CENT]
  }

  /** One cent above the value of the holding, of the top-up and of a share of the other name less the carried cent. */
  function Limit(price: int, quantity: int, size: int): int {
    RoundedGross(price, quantity) + RoundedGross(price, size) + 1
  }

  function HeldOf(quantity: int): seq<Position> {
    [Position(NAME, quantity, 0, 0), Position(OTHER, 1, 0, 0)]
  }

  /** An account that holds the name and a cent of another, with the rest of its value in cash, told to enter the
      name. */
  function TopUp(price: int, quantity: int, size: int): PortfolioInput {
    var nav := 10 * Limit(price, quantity, size);
    var cash := nav - RoundedGross(price, quantity) - 1;
    PortfolioInput(
      Account(1, 0, 0, Balances(cash, 0, 0, 0), nav, 0, true, POLICY, None, 0), HeldOf(quantity), [], DATA,
      Evaluation(true, [ENTRY]), POLICY, nav, nav, 0, Prices(price), PARAMETERS)
  }

  /** What makes a top-up of `size` the one the engine chooses, and a cent too much. */
  predicate Chosen(price: int, quantity: int, size: int) {
    && 0 < price <= HIGHEST_PRICE && 0 < quantity <= MAX_ORDER_QUANTITY - 10000 && 0 < size <= 10000
    && CarriesCent(price, quantity, size) && RoundedGross(price, size) < RoundedGross(price, size + 1)
  }

  // ---------- Its data ----------

  lemma Limits(limit: int)
    ensures MoneyLimit(10 * limit, 0.1) == limit && MoneyLimit(10 * limit, 0.2) == 2 * limit
    ensures MoneyLimit(10 * limit, 0.0) == 0
  {
    var x := limit as real;
    assert (10 * limit) as real == 10.0 * x;
    assert (10 * limit) as real * 0.1 == x && (10 * limit) as real * 0.2 == (2 * limit) as real;
  }

  lemma Quoted(price: int)
    requires price > 0
    ensures Quotes(DATA, Prices(price)) == Ok(Prices(price))
    ensures InstrumentsById(DATA.instruments) == CATALOG
  {
    var day := Session(1, HALF_HOUR, CLOSE);
    assert DATA.calendar.sessions[..0] == [];
    assert LatestClosed(DATA.calendar.sessions, CLOSE) == day;
    assert ClosingPrices([], CLOSE, 1) == map[];
    assert map[] + Prices(price) == Prices(price);
    assert DATA.instruments[..1] == [DATA.instruments[0]];
    assert DATA.instruments[..1][..0] == [];
    assert InstrumentsById(DATA.instruments[..1][..0]) == map[];
    assert InstrumentsById(DATA.instruments[..1]) == map[NAME := DATA.instruments[0]];
  }

  lemma Values(price: int, quantity: int)
    requires 0 < price <= HIGHEST_PRICE && 0 < quantity <= MAX_ORDER_QUANTITY
    ensures GrossValue(price, quantity) == Ok(RoundedGross(price, quantity))
    ensures 0 <= RoundedGross(price, quantity) <= 100_000_000_000_000_000
  {
    MulMonotone(price, 0, quantity);
    MulMonotone(price, quantity, MAX_ORDER_QUANTITY);
    InRange(price * quantity);
    hide RoundedGross;
  }

  lemma InRange(x: int)
    requires 0 <= x <= 1_000_000_000_000_000_000_000
    ensures 0 <= (x + 5000) / 10000 <= 100_000_000_000_000_000
  {
  }

  lemma NoDrawdown(nav: int)
    requires nav > 0
    ensures !DrawdownReached(nav, nav, 0.15)
  {
  }

  lemma SoundSettings()
    ensures POLICY.Valid() && PARAMETERS.Valid()
  {
  }

  // ---------- Nothing is sold ----------

  lemma SortedRows(quantity: int)
    ensures SortPositions(HeldOf(quantity)) == HeldOf(quantity)
  {
    var rows := HeldOf(quantity);
    assert rows[..1] == [rows[0]] && rows[..1][..0] == [];
    assert Sort(rows[..1][..0], ByInstrument()) == [];
    assert Sort(rows[..1], ByInstrument()) == [rows[0]];
    assert [rows[0]][1..] == [];
    assert Insert(rows[1], [], ByInstrument()) == [rows[1]];
  }

  lemma HoldsTwoRows(quantity: int)
    requires quantity > 0
    ensures Rows(HeldOf(quantity)) && Investable(HeldOf(quantity), CATALOG)
    ensures Held(HeldOf(quantity), NAME) == quantity && Held(HeldOf(quantity), OTHER) == 1
  {
    var rows := HeldOf(quantity);
    RowTotals(rows, 0);
    RowTotals(rows, 1);
  }

  lemma OneSignal()
    ensures Sort([ENTRY], ByScore()) == [ENTRY] && SignalsById([ENTRY]) == map[NAME := ENTRY]
  {
    assert [ENTRY][..0] == [];
    assert Sort([ENTRY][..0], ByScore()) == [];
    assert SignalsById([ENTRY][..0]) == map[];
  }

  function Start(input: PortfolioInput): Draft {
    Draft(input.positions, 0, input.account.balances.available, [], [], {}, map[], 0)
  }

  lemma NothingExits(price: int, quantity: int, size: int)
    requires Chosen(price, quantity, size)
    ensures var input := TopUp(price, quantity, size); AfterExits(input, Prices(price)) == Ok(Start(input))
  {
    var input, prices, signals := TopUp(price, quantity, size), Prices(price), map[NAME := ENTRY];
    var d := Start(input);
    SortedRows(quantity);
    OneSignal();
    hide Sort;
    hide SignalsById;
    Values(price, quantity);
    Values(CENT, 1);
    hide GrossValue;
    hide RoundedGross;
    forall stop | true
      ensures ExitPass(input, prices, signals, d, 2, stop) == Ok(d)
    {
      assert ExitStep(input, prices, signals, d, 0, stop) == Ok(d);
      assert ExitStep(input, prices, signals, d, 1, stop) == Ok(d);
      assert ExitPass(input, prices, signals, d, 0, stop) == Ok(d);
      assert ExitPass(input, prices, signals, d, 1, stop) == Ok(d);
    }
    hide ExitPass;
  }

  lemma OneCent()
    ensures GrossValue(CENT, 1) == Ok(1) && RoundedGross(CENT, 1) == 1
  {
  }

  lemma OneExposed(price: int, quantity: int, value: int)
    requires quantity > 0 && GrossValue(price, quantity) == Ok(value)
    ensures HoldingsExposure([Position(NAME, quantity, 0, 0)], Prices(price), CATALOG)
         == Ok(Exposure(value, map[NAME := value], map[SECTOR := value]))
  {
    hide RoundedGross;
    var rows := [Position(NAME, quantity, 0, 0)];
    assert rows[..0] == [];
    assert HoldingsExposure(rows[..0], Prices(price), CATALOG) == Ok(NO_EXPOSURE);
    assert FitsInt64(value);
  }

  lemma Exposed(price: int, quantity: int)
    requires 0 < price <= HIGHEST_PRICE && 0 < quantity <= MAX_ORDER_QUANTITY
    ensures var value := RoundedGross(price, quantity);
      HoldingsExposure(HeldOf(quantity), Prices(price), CATALOG)
      == Ok(Exposure(value + 1, map[NAME := value, OTHER := 1], map[SECTOR := value + 1]))
  {
    var rows, value := HeldOf(quantity), RoundedGross(price, quantity);
    Values(price, quantity);
    OneCent();
    OneExposed(price, quantity, value);
    TwoExposed(price, quantity, value);
  }

  lemma TwoExposed(price: int, quantity: int, value: int)
    requires quantity > 0 && 0 <= value <= 100_000_000_000_000_000 && GrossValue(CENT, 1) == Ok(1)
    requires HoldingsExposure([Position(NAME, quantity, 0, 0)], Prices(price), CATALOG)
          == Ok(Exposure(value, map[NAME := value], map[SECTOR := value]))
    ensures HoldingsExposure(HeldOf(quantity), Prices(price), CATALOG)
         == Ok(Exposure(value + 1, map[NAME := value, OTHER := 1], map[SECTOR := value + 1]))
  {
    hide GrossValue;
    var rows := HeldOf(quantity);
    assert rows[..1] == [Position(NAME, quantity, 0, 0)];
    assert map[NAME := value][OTHER := 1] == map[NAME := value, OTHER := 1];
    assert map[SECTOR := value][SECTOR := value + 1] == map[SECTOR := value + 1];
  }

  lemma NothingReduced(price: int, quantity: int, size: int, cap: Cap)
    requires Chosen(price, quantity, size)
    ensures var d := Start(TopUp(price, quantity, size));
      ReducePass(TopUp(price, quantity, size), Prices(price), CATALOG, d, 2, cap) == Ok(d)
  {
    var input, prices, d := TopUp(price, quantity, size), Prices(price), Start(TopUp(price, quantity, size));
    Exposed(price, quantity);
    Values(price, quantity);
    Values(price, size);
    Limits(Limit(price, quantity, size));
    hide MoneyLimit;
    hide HoldingsExposure;
    hide GrossValue;
    hide RoundedGross;
    hide KeptQuantity;
    hide AppendSell;
    assert ReduceStep(input, prices, CATALOG, d, 0, cap) == Ok(d);
    assert ReduceStep(input, prices, CATALOG, d, 1, cap) == Ok(d);
    assert ReducePass(input, prices, CATALOG, d, 0, cap) == Ok(d);
    assert ReducePass(input, prices, CATALOG, d, 1, cap) == Ok(d);
  }

  lemma NothingSold(price: int, quantity: int, size: int)
    requires Chosen(price, quantity, size)
    ensures var input := TopUp(price, quantity, size);
      AfterReductions(input, Prices(price), CATALOG) == Ok(Start(input))
  {
    NothingExits(price, quantity, size);
    NothingReduced(price, quantity, size, SingleCap);
    NothingReduced(price, quantity, size, IndustryCap);
    NothingReduced(price, quantity, size, StockCap);
    hide AfterExits;
    hide ReducePass;
  }

  // ---------- The top-up ----------

  /** The size is the largest that the room of the industry allows, and every other limit allows it. */
  lemma LargestAllowed(price: int, quantity: int, size: int)
    requires Chosen(price, quantity, size)
    ensures var gross, limit := RoundedGross(price, size), Limit(price, quantity, size);
      MaxWholeQuantity(MAX_ORDER_QUANTITY,
                       BuyWithin(price, gross + 1, gross, gross, 2 * limit,
                                 10 * limit - RoundedGross(price, quantity) - 1)) == size
  {
    var gross, limit := RoundedGross(price, size), Limit(price, quantity, size);
    var test := BuyWithin(price, gross + 1, gross, gross, 2 * limit, 10 * limit - RoundedGross(price, quantity) - 1);
    Values(price, quantity);
    Values(price, size);
    Values(price, size + 1);
    hide RoundedGross;
    assert TradeFee(gross).value <= gross + 1;
    assert Fits(test, size) && !Fits(test, size + 1);
    SizingIsOptimal(MAX_ORDER_QUANTITY, test);
    var found := MaxWholeQuantity(MAX_ORDER_QUANTITY, test);
    hide MaxWholeQuantity;
    if found > size {
      UpToMaximumFits(MAX_ORDER_QUANTITY, test, size + 1);
    }
  }

  /** The cent carried still leaves the name within its own limit. */
  lemma WithinTarget(price: int, quantity: int, size: int)
    requires Chosen(price, quantity, size)
    ensures DesiredTotal(TopUp(price, quantity, size), price) >= quantity + size
  {
    var input, limit := TopUp(price, quantity, size), Limit(price, quantity, size);
    Limits(limit);
    Values(price, quantity + size);
    GrossOfSumCarries(price, quantity, size);
    hide MoneyLimit;
    hide RoundedGross;
    hide CarriesCent;
    assert Fits(GrossWithin(price, limit), quantity + size);
    SizingIsOptimal(MAX_ORDER_QUANTITY, GrossWithin(price, limit));
    hide MaxWholeQuantity;
  }

  function Ready(price: int, quantity: int, size: int): Draft {
    Start(TopUp(price, quantity, size)).(held := map[NAME := 0, OTHER := 1], holdings := 2)
  }

  lemma ReadyRows(price: int, quantity: int, size: int)
    requires quantity > 0
    ensures ReadyToBuy(Start(TopUp(price, quantity, size))) == Ready(price, quantity, size)
    ensures SoundHeld(Ready(price, quantity, size)) && CurrentQuantity(Ready(price, quantity, size), NAME) == quantity
  {
    var rows := HeldOf(quantity);
    assert rows[..1] == [rows[0]] && rows[..1][..0] == [];
    assert HeldRows(rows[..1][..0]) == map[] && CountHoldings(rows[..1][..0]) == 0;
    assert HeldRows(rows[..1]) == map[NAME := 0] && CountHoldings(rows[..1]) == 1;
    assert map[NAME := 0][OTHER := 1] == map[NAME := 0, OTHER := 1];
  }

  /** The limits the engine sizes the buy against. */
  function Test(price: int, quantity: int, size: int): SizeTest {
    var gross, limit := RoundedGross(price, size), Limit(price, quantity, size);
    BuyWithin(price, gross + 1, gross, gross, 2 * limit, 10 * limit - RoundedGross(price, quantity) - 1)
  }

  function Request(price: int, quantity: int, size: int, desired: int): RiskInput {
    BuyRequest(TopUp(price, quantity, size), Ready(price, quantity, size), NAME, price, desired)
  }

  lemma Sized(price: int, quantity: int, size: int, desired: int)
    requires Chosen(price, quantity, size)
    ensures BuySizing(Request(price, quantity, size, desired), Prices(price), CATALOG, SECTOR,
                      2 * Limit(price, quantity, size))
         == Ok(OrderSize.Sized(MAX_ORDER_QUANTITY, Test(price, quantity, size), RiskLimitExceeded))
  {
    var request, value := Request(price, quantity, size, desired), RoundedGross(price, quantity);
    Values(price, quantity);
    Values(price, size);
    Exposed(price, quantity);
    Limits(Limit(price, quantity, size));
    hide RoundedGross;
    hide HoldingsExposure;
    hide MoneyLimit;
    assert request.evaluation.signals[0] == ENTRY;
    assert EligibleSignal(request, request.evaluation.signals[0]);
    assert At(map[NAME := value, OTHER := 1], NAME) == value && At(map[SECTOR := value + 1], SECTOR) == value + 1;
    assert PARAMETERS.Valid();
  }

  lemma SizingOfRequest(price: int, quantity: int, size: int, desired: int)
    requires Chosen(price, quantity, size) && size <= desired <= MAX_ORDER_QUANTITY
    ensures OrderSizing(Request(price, quantity, size, desired))
         == BuySizing(Request(price, quantity, size, desired), Prices(price), CATALOG, SECTOR,
                      2 * Limit(price, quantity, size))
  {
    hide BuySizing;
    hide RoundedGross;
    hide Quotes;
    hide InstrumentsById;
    hide MoneyLimit;
    hide DrawdownReached;
    hide RiskPolicy.Valid;
    hide StrategyParameters.Valid;
    var limit := Limit(price, quantity, size);
    Values(price, quantity);
    Values(price, size);
    Limits(limit);
    Quoted(price);
    NoDrawdown(10 * limit);
    SoundSettings();
    assert Prices(price)[NAME := price] == Prices(price);
  }

  lemma AllowedSize(price: int, quantity: int, size: int, desired: int)
    requires Chosen(price, quantity, size) && size <= desired <= MAX_ORDER_QUANTITY
    ensures var r := ValidateOrder(Request(price, quantity, size, desired)); r.Ok? && r.value.maxQuantity == size
  {
    hide OrderSizing;
    hide BuySizing;
    hide RoundedGross;
    hide MaxWholeQuantity;
    LargestAllowed(price, quantity, size);
    Sized(price, quantity, size, desired);
    SizingOfRequest(price, quantity, size, desired);
  }

  lemma AppendFits(price: int, quantity: int, size: int)
    requires Chosen(price, quantity, size) && SoundHeld(Ready(price, quantity, size))
    ensures AppendBuy(Ready(price, quantity, size), NAME, price, size).Ok?
  {
    Values(price, quantity);
    Values(price, size);
    hide RoundedGross;
    hide Project;
  }

  /** The name is below its target, so the band leaves it to be topped up. */
  lemma BelowTarget(price: int, quantity: int, size: int)
    requires Chosen(price, quantity, size)
    ensures OutsideBand(TopUp(price, quantity, size), price, quantity) == Ok(true)
  {
    Values(price, quantity);
    Values(price, size);
    Limits(Limit(price, quantity, size));
    hide MoneyLimit;
    hide RoundedGross;
  }

  /** The engine tops the name up by exactly `size`. */
  lemma Topped(price: int, quantity: int, size: int)
    requires Chosen(price, quantity, size)
    ensures var input, ready := TopUp(price, quantity, size), Ready(price, quantity, size);
      && SoundHeld(ready) && CurrentQuantity(ready, NAME) == quantity
      && Candidate(input, ready, ENTRY)
      && BuySize(input, price, ready, NAME) == Ok(size)
  {
    var input, ready := TopUp(price, quantity, size), Ready(price, quantity, size);
    hide RoundedGross;
    hide MaxWholeQuantity;
    hide MoneyLimit;
    hide ValidateOrder;
    hide OutsideBand;
    hide CarriesCent;
    ReadyRows(price, quantity, size);
    WithinTarget(price, quantity, size);
    BelowTarget(price, quantity, size);
    SizingIsOptimal(MAX_ORDER_QUANTITY, GrossWithin(price, CapLimit(input, SingleCap)));
    AllowedSize(price, quantity, size, DesiredTotal(input, price) - quantity);
    hide DesiredTotal;
  }

  /** The buy takes all the room of the industry, and its rests carry the cent. */
  lemma Overfilling(price: int, quantity: int, size: int)
    requires Chosen(price, quantity, size)
    ensures Overfills(TopUp(price, quantity, size), Prices(price), CATALOG, Ready(price, quantity, size), ENTRY)
  {
    var input, ready := TopUp(price, quantity, size), Ready(price, quantity, size);
    Topped(price, quantity, size);
    hide BuySize;
    hide AppendBuy;
    Exposed(price, quantity);
    ExposureIsValue(HeldOf(quantity), Prices(price), CATALOG);
    Limits(Limit(price, quantity, size));
    hide RoundedGross;
    hide MoneyLimit;
    hide HoldingsExposure;
    hide Sum;
    assert At(map[SECTOR := RoundedGross(price, quantity) + 1], SECTOR) == RoundedGross(price, quantity) + 1;
  }

  lemma Bought(price: int, quantity: int, size: int)
    requires Chosen(price, quantity, size)
    ensures FinalDraft(TopUp(price, quantity, size), Prices(price), CATALOG).Ok?
    ensures SoundHeld(Ready(price, quantity, size))
    ensures Overfilled(TopUp(price, quantity, size), Prices(price), CATALOG, Ready(price, quantity, size), [ENTRY], 1)
  {
    var input, prices, ready := TopUp(price, quantity, size), Prices(price), Ready(price, quantity, size);
    hide AfterReductions;
    hide Sort;
    hide Overfills;
    hide BuySize;
    hide AppendBuy;
    hide RoundedGross;
    hide ReadyToBuy;
    NothingSold(price, quantity, size);
    ReadyRows(price, quantity, size);
    OneSignal();
    Topped(price, quantity, size);
    AppendFits(price, quantity, size);
    Overfilling(price, quantity, size);
    assert BuyPass(input, prices, ready, [ENTRY], 0) == Ok(ready);
    assert BuyStep(input, prices, ready, ENTRY) == AppendBuy(ready, NAME, price, size);
    hide BuyStep;
    assert BuyPass(input, prices, ready, [ENTRY], 1).Ok?;
  }

  /** The engine accepts the account, and its plan overfills. */
  lemma TopUpPlans(price: int, quantity: int, size: int)
    requires Chosen(price, quantity, size)
    ensures Plans(TopUp(price, quantity, size)) && PlanOverfills(TopUp(price, quantity, size))
    ensures QuotesOf(TopUp(price, quantity, size)) == Prices(price)
  {
    var input := TopUp(price, quantity, size);
    hide RoundedGross;
    Quoted(price);
    Values(price, quantity);
    Values(price, size);
    NothingSold(price, quantity, size);
    ReadyRows(price, quantity, size);
    OneSignal();
    HoldsTwoRows(quantity);
    Bought(price, quantity, size);
    NoDrawdown(input.nav);
    SoundSettings();
    hide DrawdownReached;
    hide RiskPolicy.Valid;
    hide StrategyParameters.Valid;
    hide Quotes;
    hide InstrumentsById;
    hide AfterReductions;
    hide FinalDraft;
    hide Overfilled;
    hide Sort;
    hide Investable;
    hide Rows;
    hide ReadyToBuy;
    hide Ready;
  }

  // ---------- Which holdings ----------

  /** A plan that ends over a limit, by however little. */
  ghost predicate Exceeds(input: PortfolioInput) {
    Plans(input) && !EndsCapped(input, 0)
  }

  /** Every name to enter has one signal and is either not held or held at this price and quantity. */
  ghost predicate Enters(input: PortfolioInput, price: int, quantity: int) {
    forall s :: s in input.evaluation.signals && RebalanceRounding.Enters(input, s)
                && s.instrument in QuotesOf(input) ==>
      && Sum(input.evaluation.signals, EntriesOf(input, s.instrument)) == 1
      && (Held(input.positions, s.instrument) == 0
          || (QuotesOf(input)[s.instrument] == price && Held(input.positions, s.instrument) == quantity))
  }

  /** Some account that enters names held at this price and quantity gets a plan that ends over a limit. */
  ghost predicate CanExceed(price: int, quantity: int) {
    exists input :: Enters(input, price, quantity) && Exceeds(input)
  }

  lemma NothingHeldIsSteady(price: int)
    ensures !Prone(price, 0)
  {
  }

  /** Holdings that are not rounded down with a rest never make a plan end over a limit. */
  lemma SteadyHoldingsNeverExceed(input: PortfolioInput, price: int, quantity: int)
    requires Enters(input, price, quantity) && !Prone(price, quantity)
    ensures !Exceeds(input)
  {
    if Plans(input) {
      forall s | s in input.evaluation.signals && RebalanceRounding.Enters(input, s) && s.instrument in QuotesOf(input)
        ensures Sum(input.evaluation.signals, EntriesOf(input, s.instrument)) == 1
        ensures !Prone(QuotesOf(input)[s.instrument], Held(input.positions, s.instrument))
      {
        NothingHeldIsSteady(QuotesOf(input)[s.instrument]);
      }
      hide Plans;
      hide EndsCapped;
      hide Prone;
      hide QuotesOf;
      hide Enters;
      SteadyPlansAreExact(input);
    }
  }

  /** A holding that is rounded down with a rest does, in an account made for it. */
  lemma ProneHoldingExceeds(price: int, quantity: int) returns (input: PortfolioInput)
    requires 0 < price <= HIGHEST_PRICE && 0 < quantity <= MAX_ORDER_QUANTITY - 10000 && Prone(price, quantity)
    ensures Enters(input, price, quantity) && Exceeds(input)
    ensures input.nav == input.account.balances.available + RoundedGross(price, quantity) + 1
  {
    var size := ProneCarries(price, quantity);
    input := TopUp(price, quantity, size);
    hide Prone;
    hide RoundedGross;
    hide CarriesCent;
    TopUpPlans(price, quantity, size);
    HoldsTwoRows(quantity);
    PlanMeetsCaps(input);
    hide Plans;
    hide EndsCapped;
    hide PlanOverfills;
    hide QuotesOf;
    hide Held;
    hide Rows;
    hide Investable;
    assert input.evaluation.signals[..0] == [];
    assert Sum(input.evaluation.signals, EntriesOf(input, NAME)) == 1;
  }

  /** A plan can end over a limit because of a holding if and only if the holding is rounded down with a rest: exactly
      when its value in micro-dollars leaves between 1 and 4999 on whole cents. */
  lemma ExactlyProneHoldingsExceed(price: int, quantity: int)
    requires 0 < price <= HIGHEST_PRICE && 0 < quantity <= MAX_ORDER_QUANTITY - 10000
    ensures CanExceed(price, quantity) <==> 0 < (price * quantity) % 10000 < 5000
  {
    assert Prone(price, quantity) <==> 0 < (price * quantity) % 10000 < 5000;
    hide Prone;
    hide Enters;
    hide Exceeds;
    if Prone(price, quantity) {
      var input := ProneHoldingExceeds(price, quantity);
    } else {
      forall input | Enters(input, price, quantity)
        ensures !Exceeds(input)
      {
        SteadyHoldingsNeverExceed(input, price, quantity);
      }
    }
  }

  /** A smallest case: an account of ten cents with limits of one cent, whose share at four tenths of a cent is topped
      up by another; the two are worth a cent, and with the cent held already the industry and the stocks are at two. */
  lemma ACentOver()
    ensures var input := TopUp(4000, 1, 1);
      && input.nav == 10 && Plans(input) && EndsCapped(input, 1) && !EndsCapped(input, 0)
  {
    assert RoundedGross(4000, 1) == 0 && RoundedGross(4000, 2) == 1;
    assert Chosen(4000, 1, 1);
    TopUpPlans(4000, 1, 1);
    PlanMeetsCaps(TopUp(4000, 1, 1));
  }
}
