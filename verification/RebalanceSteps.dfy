/** What one planned sell or buy does to a draft, and the budgets every plan respects. */
module RebalanceSteps {
  import opened Outcomes
  import opened Money
  import opened Sizing
  import opened Domain
  import opened Lists
  import opened Sums
  import opened Holdings
  import opened Snapshots
  import opened Risk
  import opened Rebalance

  // ---------- Rows ----------

  predicate Row(p: Position) {
    0 <= p.reservedQuantity <= p.quantity && p.costBasis >= 0
  }

  predicate Rows(positions: seq<Position>) {
    Distinct(positions) && forall n :: 0 <= n < |positions| ==> Row(positions[n])
  }

  lemma {:induction false} NoFreeShares(positions: seq<Position>, id: int)
    requires forall p :: p in positions ==> p.instrument != id
    ensures FreeShares(positions, id) == Ok(0)
  {
    if positions != [] {
      NoFreeShares(positions[..|positions| - 1], id);
    }
  }

  lemma {:induction false} FreeSharesOfRow(positions: seq<Position>, n: nat)
    requires Rows(positions) && n < |positions|
    ensures FreeShares(positions, positions[n].instrument) == Ok(positions[n].quantity - positions[n].reservedQuantity)
  {
    var init, last := positions[..|positions| - 1], positions[|positions| - 1];
    if n == |init| {
      NoFreeShares(init, last.instrument);
    } else {
      FreeSharesOfRow(init, n);
    }
  }

  lemma SortKeepsRows(positions: seq<Position>)
    requires Rows(positions)
    ensures Rows(SortPositions(positions))
    ensures forall id :: Held(SortPositions(positions), id) == Held(positions, id)
    ensures forall id :: Reserved(SortPositions(positions), id) == Reserved(positions, id)
  {
    var sorted := SortPositions(positions);
    SortPermutes(positions, ByInstrument());
    DistinctPermuted(positions, sorted);
    forall k | 0 <= k < |sorted|
      ensures Row(sorted[k])
    {
      SortKeepsElements(positions, ByInstrument(), sorted[k]);
    }
    forall id
      ensures Held(sorted, id) == Held(positions, id)
      ensures Reserved(sorted, id) == Reserved(positions, id)
    {
      SumPermuted(sorted, positions, SharesOf(id));
      SumPermuted(sorted, positions, ReservedSharesOf(id));
    }
  }

  // ---------- Planned amounts ----------

  function GrossOf(prices: map<int, int>): PlannedOrder -> int {
    (o: PlannedOrder) => RoundedGross(At(prices, o.instrument), o.quantity)
  }

  function CostOf(prices: map<int, int>): PlannedOrder -> int {
    (o: PlannedOrder) =>
      if o.side == Buy && PurchaseCost(At(prices, o.instrument), o.quantity).Ok?
      then PurchaseCost(At(prices, o.instrument), o.quantity).value else 0
  }

  function SoldOf(id: int): PlannedOrder -> int {
    (o: PlannedOrder) => if o.side == Sell && o.instrument == id then o.quantity else 0
  }

  function TradeOf(id: int): PlannedOrder -> int {
    (o: PlannedOrder) => if o.instrument != id then 0 else if o.side == Buy then o.quantity else -o.quantity
  }

  function TurnoverLimit(input: PortfolioInput): int {
    MoneyLimit(input.nav, input.policy.turnoverLimit)
  }

  /** An order is within the turnover budget left before it, unless it is a sell that reduces risk. */
  predicate WithinTurnover(input: PortfolioInput, prices: map<int, int>, turnover: int, o: PlannedOrder) {
    (o.side == Sell && EmergencySell(o.reason)) || GrossOf(prices)(o) <= NotBelowZero(TurnoverLimit(input) - turnover)
  }

  // ---------- One sell ----------

  ghost predicate SellMade(input: PortfolioInput, prices: map<int, int>, d: Draft, e: Draft, n: nat, size: int,
                           reason: Reason)
    requires n < |d.positions|
  {
    var p := d.positions[n];
    var o := PlannedOrder(p.instrument, Sell, reason, size);
    && 0 < size <= p.quantity - p.reservedQuantity && size <= MAX_ORDER_QUANTITY
    && e.positions == d.positions[n := p.(quantity := p.quantity - size)]
    && e.orders == d.orders + [o]
    && e.cash == d.cash
    && e.turnover == d.turnover + GrossOf(prices)(o)
    && WithinTurnover(input, prices, d.turnover, o)
  }

  predicate NothingPlanned(d: Draft, e: Draft) {
    e.positions == d.positions && e.orders == d.orders && e.cash == d.cash && e.turnover == d.turnover
  }

  lemma SellDecision(input: PortfolioInput, d: Draft, n: nat, price: int, quantity: int, reason: Reason, size: int)
    requires n < |d.positions| && Rows(d.positions)
    requires var decision := ValidateOrder(SellRequest(input, d, n, price, quantity, reason));
      decision.Ok? && 0 < size <= decision.value.maxQuantity
    ensures price > 0 && size <= MAX_ORDER_QUANTITY && size <= d.positions[n].quantity - d.positions[n].reservedQuantity
    ensures EmergencySell(reason) || GrossAtMost(price, size, NotBelowZero(TurnoverLimit(input) - d.turnover))
  {
    var request := SellRequest(input, d, n, price, quantity, reason);
    FreeSharesOfRow(d.positions, n);
    match OrderSizing(request).value
    case Refused(_) =>
    case Sized(limit, test, _) =>
      UpToMaximumFits(limit, test, size);
  }

  lemma AppendSellEffect(input: PortfolioInput, prices: map<int, int>, d: Draft, n: nat, quantity: int, reason: Reason)
    returns (size: int)
    requires n < |d.positions| && Rows(d.positions)
    requires AppendSell(input, prices, d, n, quantity, reason).Ok?
    ensures var e := AppendSell(input, prices, d, n, quantity, reason).value;
      && size >= 0
      && (size == 0 ==> NothingPlanned(d, e))
      && (size > 0 ==> SellMade(input, prices, d, e, n, size, reason) && size <= quantity)
    ensures var decision :=
      ValidateOrder(SellRequest(input, d, n, At(prices, d.positions[n].instrument), quantity, reason));
      quantity > 0 ==> decision.Ok? && (decision.value.maxQuantity >= quantity ==> size == quantity)
  {
    hide ValidateOrder;
    size := 0;
    if quantity > 0 {
      var price := At(prices, d.positions[n].instrument);
      var max := ValidateOrder(SellRequest(input, d, n, price, quantity, reason)).value.maxQuantity;
      var s := if quantity > max then max else quantity;
      if s > 0 {
        SellDecision(input, d, n, price, quantity, reason, s);
        size := s;
      }
    }
  }

  // ---------- One buy ----------

  lemma SamePrices(prices: map<int, int>, id: int)
    requires id in prices
    ensures prices[id := prices[id]] == prices
  {
  }

  ghost predicate BuyMade(input: PortfolioInput, prices: map<int, int>, instruments: map<int, Instrument>, d: Draft,
                          e: Draft, id: int, size: int)
    requires SoundHeld(d)
  {
    var o := PlannedOrder(id, Buy, EntrySignal, size);
    && id in prices && prices[id] > 0 && Classified(instruments, id)
    && 0 < size && CurrentQuantity(d, id) + size <= MAX_ORDER_QUANTITY
    && GrossAtMost(prices[id], CurrentQuantity(d, id) + size, CapLimit(input, SingleCap))
    && e.positions == Project(d, id, size).positions
    && e.held == Project(d, id, size).held
    && e.orders == d.orders + [o]
    && PurchaseCost(prices[id], size).Ok? && PurchaseCost(prices[id], size).value <= d.cash
    && e.cash == d.cash - CostOf(prices)(o)
    && e.turnover == d.turnover + GrossOf(prices)(o)
    && WithinTurnover(input, prices, d.turnover, o)
    && HoldingsExposure(d.positions, prices, instruments).Ok?
    && var x := HoldingsExposure(d.positions, prices, instruments).value;
      && GrossOf(prices)(o) <= CapLimit(input, IndustryCap) - At(x.byIndustry, instruments[id].industry)
      && GrossOf(prices)(o) <= CapLimit(input, StockCap) - x.stocks
  }

  lemma BuyDecision(input: PortfolioInput, prices: map<int, int>, d: Draft, id: int, quantity: int, size: int)
    requires Quotes(input.snapshot, input.prices) == Ok(prices) && id in prices
    requires var decision := ValidateOrder(BuyRequest(input, d, id, prices[id], quantity));
      decision.Ok? && 0 < size <= decision.value.maxQuantity
    ensures var instruments := InstrumentsById(input.snapshot.instruments);
      && Classified(instruments, id)
      && HoldingsExposure(d.positions, prices, instruments).Ok?
      && var x := HoldingsExposure(d.positions, prices, instruments).value;
        Fits(BuyWithin(prices[id],
                       CapLimit(input, SingleCap) - At(x.byId, id),
                       CapLimit(input, IndustryCap) - At(x.byIndustry, instruments[id].industry),
                       CapLimit(input, StockCap) - x.stocks,
                       NotBelowZero(TurnoverLimit(input) - d.turnover), d.cash), size)
  {
    var request := BuyRequest(input, d, id, prices[id], quantity);
    SamePrices(prices, id);
    match OrderSizing(request).value
    case Refused(_) =>
    case Sized(limit, test, _) =>
      UpToMaximumFits(limit, test, size);
  }

  lemma BuySizeWithinTarget(input: PortfolioInput, price: int, d: Draft, id: int, size: int)
    requires SoundHeld(d) && CurrentQuantity(d, id) >= 0
    requires BuySize(input, price, d, id) == Ok(size) && size > 0
    ensures var desired := DesiredTotal(input, price) - CurrentQuantity(d, id);
      && size <= desired
      && ValidateOrder(BuyRequest(input, d, id, price, desired)).Ok?
      && size <= ValidateOrder(BuyRequest(input, d, id, price, desired)).value.maxQuantity
    ensures CurrentQuantity(d, id) + size <= MAX_ORDER_QUANTITY
    ensures GrossAtMost(price, CurrentQuantity(d, id) + size, CapLimit(input, SingleCap))
  {
    hide ValidateOrder;
    hide MoneyLimit;
    UpToMaximumFits(MAX_ORDER_QUANTITY, GrossWithin(price, CapLimit(input, SingleCap)), CurrentQuantity(d, id) + size);
  }

  /** The shares a step buys: none when the signal is no candidate, has no price or is refused. */
  function Bought(input: PortfolioInput, prices: map<int, int>, d: Draft, s: Signal): (size: int)
    requires SoundHeld(d)
    ensures size > 0 ==> Candidate(input, d, s) && s.instrument in prices
  {
    if !Candidate(input, d, s) || s.instrument !in prices then 0
    else
      var size := BuySize(input, prices[s.instrument], d, s.instrument);
      if size.Ok? then NotBelowZero(size.value) else 0
  }

  lemma BuyStepEffect(input: PortfolioInput, prices: map<int, int>, d: Draft, s: Signal)
    requires SoundHeld(d) && input.nav > 0
    requires Quotes(input.snapshot, input.prices) == Ok(prices)
    requires forall n :: 0 <= n < |d.positions| ==> d.positions[n].quantity >= 0
    requires BuyStep(input, prices, d, s).Ok?
    ensures var e, size := BuyStep(input, prices, d, s).value, Bought(input, prices, d, s);
      && size >= 0
      && (size == 0 ==> NothingPlanned(d, e) && e.held == d.held)
      && (size > 0 ==> BuyMade(input, prices, InstrumentsById(input.snapshot.instruments), d, e, s.instrument, size))
  {
    hide ValidateOrder;
    hide BuySize;
    hide MoneyLimit;
    hide HoldingsExposure;
    hide MaxWholeQuantity;
    var id := s.instrument;
    if Candidate(input, d, s) && id in prices {
      QuotesArePositive(input.snapshot, input.prices);
      var q := BuySize(input, prices[id], d, id).value;
      if q > 0 {
        BuySizeWithinTarget(input, prices[id], d, id, q);
        BuyDecision(input, prices, d, id, DesiredTotal(input, prices[id]) - CurrentQuantity(d, id), q);
      }
    }
  }
}
