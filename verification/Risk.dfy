/** Risk limits: exposure of a portfolio, the size an order may have, and net asset value. */
module Risk {
  import opened Outcomes
  import opened Money
  import opened Sizing
  import opened Domain
  import opened Snapshots
  import opened Sums

  // ---------- Strategy output ----------

  datatype RiskLevel = LowRisk | MediumRisk | HighRisk | UnknownRisk | Unrated

  datatype Signal = Signal(instrument: int, score: real, rank: int, level: RiskLevel)

  datatype Evaluation = Evaluation(completed: bool, signals: seq<Signal>)

  datatype StrategyParameters = StrategyParameters(
    weights: seq<real>, entryScore: real, exitScore: real, rebalanceBand: real, maxHoldings: int)
  {
    predicate Valid() {
      && |weights| == 5
      && (forall k :: 0 <= k < 5 ==> 0.0 <= weights[k] <= 1.0)
      && -0.000000001 <= weights[0] + weights[1] + weights[2] + weights[3] + weights[4] - 1.0 <= 0.000000001
      && entryScore <= 100.0 && exitScore < entryScore && exitScore >= 0.0
      && 0.0 <= rebalanceBand <= 1.0 && 1 <= maxHoldings <= 10
    }
  }

  // ---------- Limits ----------

  /** A weight of the net asset value in whole cents, rounded towards zero. */
  function MoneyLimit(nav: int, weight: real): int {
    var x := nav as real * weight;
    if x >= 0.0 then x.Floor else -((-x).Floor)
  }

  predicate DrawdownReached(nav: int, peak: int, threshold: real) {
    peak > 0 && nav as real <= (1.0 - threshold) * peak as real
  }

  lemma LimitIsNonNegative(nav: int, weight: real)
    requires nav >= 0 && weight >= 0.0
    ensures MoneyLimit(nav, weight) >= 0
  {
    assert nav as real * weight >= 0.0;
  }

  // ---------- Exposure ----------

  datatype Exposure = Exposure(stocks: int, byId: map<int, int>, byIndustry: map<int, int>)

  const NO_EXPOSURE := Exposure(0, map[], map[])

  function At(m: map<int, int>, k: int): int {
    if k in m then m[k] else 0
  }

  predicate Classified(instruments: map<int, Instrument>, id: int) {
    id in instruments && instruments[id].industry != UNKNOWN_INDUSTRY
  }

  function AddExposure(e: Exposure, instruments: map<int, Instrument>, id: int, value: int): Result<Exposure> {
    if id !in instruments then Err(DataStale)
    else if instruments[id].industry == UNKNOWN_INDUSTRY then Err(FactorUnavailable)
    else
      var industry := instruments[id].industry;
      var stocks :- AddMoney(e.stocks, value);
      var name :- AddMoney(At(e.byId, id), value);
      var sector :- AddMoney(At(e.byIndustry, industry), value);
      Ok(Exposure(stocks, e.byId[id := name], e.byIndustry[industry := sector]))
  }

  predicate WellFormedRow(positions: seq<Position>, n: nat)
    requires n < |positions|
  {
    var p := positions[n];
    && (forall k :: 0 <= k < n ==> positions[k].instrument != p.instrument)
    && 0 <= p.reservedQuantity <= p.quantity && p.costBasis >= 0
  }

  function HoldingsExposure(positions: seq<Position>, prices: map<int, int>,
                            instruments: map<int, Instrument>): Result<Exposure> {
    if positions == [] then Ok(NO_EXPOSURE)
    else
      var n := |positions| - 1;
      var p := positions[n];
      var e :- HoldingsExposure(positions[..n], prices, instruments);
      if !WellFormedRow(positions, n) then Err(InvalidInput)
      else if p.quantity == 0 then Ok(e)
      else if p.instrument !in prices then Err(DataStale)
      else
        var value :- GrossValue(prices[p.instrument], p.quantity);
        AddExposure(e, instruments, p.instrument, value)
  }

  /** Pending buys count with the cash they hold. */
  function OrdersExposure(e: Exposure, orders: seq<Order>, instruments: map<int, Instrument>,
                          exclude: Option<OrderId>): Result<Exposure> {
    if orders == [] then Ok(e)
    else
      var o := orders[|orders| - 1];
      var so :- OrdersExposure(e, orders[..|orders| - 1], instruments, exclude);
      if exclude == Some(o.id) || o.Terminal() || o.side != Buy then Ok(so)
      else if o.reservedCash < 0 then Err(InvalidInput)
      else AddExposure(so, instruments, o.instrument, o.reservedCash)
  }

  function PortfolioExposure(positions: seq<Position>, orders: seq<Order>, prices: map<int, int>,
                             instruments: map<int, Instrument>, exclude: Option<OrderId>): Result<Exposure>
  {
    var e :- HoldingsExposure(positions, prices, instruments);
    OrdersExposure(e, orders, instruments, exclude)
  }

  function ValueAt(prices: map<int, int>, p: Position): int {
    if p.quantity == 0 || p.instrument !in prices then 0 else RoundedGross(prices[p.instrument], p.quantity)
  }

  function StockValue(prices: map<int, int>): Position -> int {
    (p: Position) => ValueAt(prices, p)
  }

  function NameValue(prices: map<int, int>, id: int): Position -> int {
    (p: Position) => if p.instrument == id then ValueAt(prices, p) else 0
  }

  function IndustryValue(prices: map<int, int>, instruments: map<int, Instrument>, industry: int): Position -> int {
    (p: Position) =>
      if p.instrument in instruments && instruments[p.instrument].industry == industry then ValueAt(prices, p) else 0
  }

  /** A portfolio whose exposure can be computed: every holding has a price and a known industry. */
  predicate Valued(positions: seq<Position>, prices: map<int, int>, instruments: map<int, Instrument>) {
    forall n :: 0 <= n < |positions| ==>
      && WellFormedRow(positions, n)
      && (positions[n].quantity > 0 ==>
            && positions[n].instrument in prices && Classified(instruments, positions[n].instrument)
            && GrossValue(prices[positions[n].instrument], positions[n].quantity).Ok?)
  }

  /** Exposure is the total value of the holdings: overall, by name and by industry. */
  lemma {:induction false} ExposureIsValue(positions: seq<Position>, prices: map<int, int>,
                                           instruments: map<int, Instrument>)
    requires HoldingsExposure(positions, prices, instruments).Ok?
    ensures Valued(positions, prices, instruments)
    ensures var e := HoldingsExposure(positions, prices, instruments).value;
      && e.stocks == Sum(positions, StockValue(prices))
      && (forall id :: At(e.byId, id) == Sum(positions, NameValue(prices, id)))
      && (forall k :: k != UNKNOWN_INDUSTRY ==>
            At(e.byIndustry, k) == Sum(positions, IndustryValue(prices, instruments, k)))
  {
    if positions != [] {
      var n := |positions| - 1;
      ExposureIsValue(positions[..n], prices, instruments);
      forall k | 0 <= k < |positions|
        ensures WellFormedRow(positions, k)
      {
        if k < n {
          assert WellFormedRow(positions[..n], k);
        }
      }
    }
  }

  // ---------- Order sizing ----------

  datatype RiskInput = RiskInput(
    account: Account, positions: seq<Position>, orders: seq<Order>, snapshot: Snapshot, evaluation: Evaluation,
    instrument: int, side: Side, reason: Reason, exclude: Option<OrderId>, quantity: int, price: int,
    nav: int, peakNav: int, policy: RiskPolicy, sessionTurnover: int, automatic: bool, budget: Option<int>,
    prices: map<int, int>, parameters: StrategyParameters, targetOpenAt: int)

  datatype RiskDecision = RiskDecision(allowed: bool, reason: Reason, maxQuantity: int)

  /** Either a refusal, or the range and the test the size of the order is searched in. */
  datatype OrderSize =
    | Refused(why: Reason)
    | Sized(limit: int, test: SizeTest, short: Reason)

  /** Turnover an open order already claims. */
  function ClaimedTurnover(o: Order, prices: map<int, int>): Result<int> {
    match o.side
    case Buy => Ok(RecoveredTurnover(o.reservedCash))
    case Sell =>
      if o.instrument !in prices then Err(DataStale)
      else
        var price :- SlippedPrice(prices[o.instrument], Sell);
        GrossValue(price, o.quantity)
  }

  predicate Competes(o: Order, exclude: Option<OrderId>, targetOpenAt: int) {
    exclude != Some(o.id) && !o.Terminal() && (targetOpenAt == 0 || DateOf(o.targetOpenAt) == DateOf(targetOpenAt))
  }

  function TurnoverAfter(budget: int, orders: seq<Order>, prices: map<int, int>, exclude: Option<OrderId>,
                         targetOpenAt: int): Result<int> {
    if orders == [] then Ok(budget)
    else
      var o := orders[|orders| - 1];
      var left :- TurnoverAfter(budget, orders[..|orders| - 1], prices, exclude, targetOpenAt);
      if !Competes(o, exclude, targetOpenAt) then Ok(left)
      else
        var gross :- ClaimedTurnover(o, prices);
        Ok(if gross > left then 0 else left - gross)
  }

  function NotBelowZero(n: int): int {
    if n < 0 then 0 else n
  }

  function FreeShares(positions: seq<Position>, id: int): Result<int> {
    if positions == [] then Ok(0)
    else
      var p := positions[|positions| - 1];
      var free :- FreeShares(positions[..|positions| - 1], id);
      if p.instrument != id then Ok(free)
      else if p.reservedQuantity < 0 || p.reservedQuantity > p.quantity then Err(InvalidInput)
      else Ok(p.quantity - p.reservedQuantity)
  }

  function SharesOfOrder(id: OrderId): Order -> int {
    (o: Order) => if o.id == id && o.side == Sell && !o.Terminal() then o.reservedQuantity else 0
  }

  function OwnShares(orders: seq<Order>, exclude: Option<OrderId>): int {
    match exclude
    case None => 0
    case Some(id) => Sum(orders, SharesOfOrder(id))
  }

  predicate EligibleSignal(req: RiskInput, s: Signal) {
    && req.evaluation.completed && s.instrument == req.instrument && s.score >= req.parameters.entryScore
    && 1 <= s.rank <= req.parameters.maxHoldings && (s.level == LowRisk || s.level == MediumRisk)
  }

  predicate EligibleCandidate(req: RiskInput) {
    exists n :: 0 <= n < |req.evaluation.signals| && EligibleSignal(req, req.evaluation.signals[n])
  }

  function SellSizing(req: RiskInput, turnover: int): Result<OrderSize> {
    var free :- FreeShares(req.positions, req.instrument);
    var available := free + OwnShares(req.orders, req.exclude);
    if available < 0 then Err(InvalidInput)
    else Ok(Sized(if available > MAX_ORDER_QUANTITY then MAX_ORDER_QUANTITY else available,
                  if EmergencySell(req.reason) then Unlimited else GrossWithin(req.price, turnover),
                  RiskLimitExceeded))
  }

  function BuySizing(req: RiskInput, prices: map<int, int>, instruments: map<int, Instrument>, industry: int,
                     turnover: int): Result<OrderSize> {
    if req.automatic && !req.parameters.Valid() then Err(InvalidInput)
    else if req.automatic && !EligibleCandidate(req) then Ok(Refused(CandidateIneligible))
    else
      var e :- PortfolioExposure(req.positions, req.orders, prices, instruments, req.exclude);
      var cash := match req.budget case Some(b) => b case None => req.account.balances.available;
      if cash < 0 then Err(InvalidInput)
      else Ok(Sized(MAX_ORDER_QUANTITY,
                    BuyWithin(req.price,
                              MoneyLimit(req.nav, req.policy.singleWeight) - At(e.byId, req.instrument),
                              MoneyLimit(req.nav, req.policy.industryWeight) - At(e.byIndustry, industry),
                              MoneyLimit(req.nav, req.policy.stockWeight) - e.stocks,
                              turnover, cash),
                    if cash == 0 then NoSettledCash else RiskLimitExceeded))
  }

  function OrderSizing(req: RiskInput): Result<OrderSize> {
    var peak := if req.peakNav == 0 then req.account.initialCash else req.peakNav;
    if req.quantity <= 0 || req.quantity > MAX_ORDER_QUANTITY || req.price <= 0 || req.nav <= 0
       || req.sessionTurnover < 0 || !req.policy.Valid() || peak < 0 then Err(InvalidInput)
    else if req.side == Buy && DrawdownReached(req.nav, peak, req.policy.drawdownPause) then Ok(Refused(DrawdownPause))
    else
      var quotes :- Quotes(req.snapshot, req.prices);
      var prices := quotes[req.instrument := req.price];
      var instruments := InstrumentsById(req.snapshot.instruments);
      if req.instrument !in instruments || !instruments[req.instrument].isStock || !instruments[req.instrument].tradable
      then Ok(Refused(InstrumentIneligible))
      else if instruments[req.instrument].industry == UNKNOWN_INDUSTRY then Ok(Refused(IndustryUnknown))
      else
        var left :- TurnoverAfter(MoneyLimit(req.nav, req.policy.turnoverLimit) - req.sessionTurnover,
                                  req.orders, prices, req.exclude, req.targetOpenAt);
        match req.side
        case Sell => SellSizing(req, NotBelowZero(left))
        case Buy => BuySizing(req, prices, instruments, instruments[req.instrument].industry, NotBelowZero(left))
  }

  function ValidateOrder(req: RiskInput): Result<RiskDecision> {
    var size :- OrderSizing(req);
    match size
    case Refused(why) => Ok(RiskDecision(false, why, 0))
    case Sized(limit, test, short) =>
      var max := MaxWholeQuantity(limit, test);
      var allowed := req.quantity <= max;
      Ok(RiskDecision(allowed,
                      if allowed then NoReason else if max == 0 then short else RiskLimitExceeded,
                      max))
  }

  /** The largest allowed size is exactly the largest that meets every limit, and an order is allowed
      if and only if its own size meets them all. */
  lemma OrderSizeIsOptimal(req: RiskInput)
    requires OrderSizing(req).Ok? && OrderSizing(req).value.Sized?
    ensures var size := OrderSizing(req).value;
      && ValidateOrder(req).Ok?
      && IsLargest(size.test, size.limit, ValidateOrder(req).value.maxQuantity)
      && (ValidateOrder(req).value.allowed <==> req.quantity <= size.limit && Fits(size.test, req.quantity))
  {
    var size := OrderSizing(req).value;
    assert size.limit >= 0;
    SizingIsOptimal(size.limit, size.test);
    if 0 < req.quantity <= MaxWholeQuantity(size.limit, size.test) {
      UpToMaximumFits(size.limit, size.test, req.quantity);
    }
  }

  // ---------- Net asset value ----------

  function AddHoldings(total: int, positions: seq<Position>, prices: map<int, int>): Result<int> {
    if positions == [] then Ok(total)
    else
      var p := positions[|positions| - 1];
      var sum :- AddHoldings(total, positions[..|positions| - 1], prices);
      if p.quantity == 0 then Ok(sum)
      else if p.instrument !in prices then Err(DataStale)
      else
        var value :- GrossValue(prices[p.instrument], p.quantity);
        AddMoney(sum, value)
  }

  function ComputeNAV(account: Account, positions: seq<Position>, s: Snapshot, overrides: map<int, int>): Result<int> {
    var cash :- TotalCash(account.balances);
    var prices :- Quotes(s, overrides);
    AddHoldings(cash, positions, prices)
  }
}
