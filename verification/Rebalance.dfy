/** The rebalancing plan: stop losses, exits and risk reductions first, then entries within the remaining budgets. */
module Rebalance {
  import opened Outcomes
  import opened Money
  import opened Sizing
  import opened Domain
  import opened Lists
  import opened Snapshots
  import opened Risk

  datatype PortfolioInput = PortfolioInput(
    account: Account, positions: seq<Position>, orders: seq<Order>, snapshot: Snapshot, evaluation: Evaluation,
    policy: RiskPolicy, nav: int, peakNav: int, sessionTurnover: int, prices: map<int, int>,
    parameters: StrategyParameters)

  datatype PlannedOrder = PlannedOrder(instrument: int, side: Side, reason: Reason, quantity: int)

  datatype Note = DrawdownPaused | UnresolvedOrders | TurnoverExhausted | CandidatePriceMissing | InsufficientEvidence

  datatype RebalancePlan = RebalancePlan(orders: seq<PlannedOrder>, pause: bool, notes: seq<Note>)

  /** The plan under construction: the projected rows, the budgets left and the names already sold. */
  datatype Draft = Draft(
    positions: seq<Position>, turnover: int, cash: int, orders: seq<PlannedOrder>, notes: seq<Note>,
    blocked: set<int>, held: map<int, int>, holdings: int)

  function ByScore(): (Signal, Signal) -> bool {
    (a: Signal, b: Signal) => if a.score != b.score then a.score > b.score else a.instrument < b.instrument
  }

  function SignalsById(ranked: seq<Signal>): map<int, Signal> {
    if ranked == [] then map[]
    else SignalsById(ranked[..|ranked| - 1])[ranked[|ranked| - 1].instrument := ranked[|ranked| - 1]]
  }

  // ---------- Sells ----------

  function SellRequest(input: PortfolioInput, d: Draft, n: nat, price: int, quantity: int, reason: Reason): RiskInput
    requires n < |d.positions|
  {
    RiskInput(input.account, d.positions, [], input.snapshot, Evaluation(false, []), d.positions[n].instrument, Sell,
              reason, None, quantity, price, input.nav, input.peakNav, input.policy, d.turnover, false, None,
              input.prices, input.parameters, 0)
  }

  function AppendSell(input: PortfolioInput, prices: map<int, int>, d: Draft, n: nat, quantity: int,
                      reason: Reason): (r: Result<Draft>)
    requires n < |d.positions|
    ensures r.Ok? ==> |r.value.positions| == |d.positions|
  {
    if quantity <= 0 then Ok(d)
    else
      var p := d.positions[n];
      var price := At(prices, p.instrument);
      var decision :- ValidateOrder(SellRequest(input, d, n, price, quantity, reason));
      var size := if quantity > decision.maxQuantity then decision.maxQuantity else quantity;
      if size <= 0 then Ok(d.(notes := d.notes + [TurnoverExhausted]))
      else
        var gross :- GrossValue(price, size);
        var turnover :- AddMoney(d.turnover, gross);
        Ok(d.(turnover := turnover,
              orders := d.orders + [PlannedOrder(p.instrument, Sell, reason, size)],
              positions := d.positions[n := p.(quantity := p.quantity - size)],
              blocked := d.blocked + {p.instrument}))
  }

  predicate LossReached(input: PortfolioInput, p: Position, gross: int) {
    p.costBasis > 0 && DrawdownReached(gross, p.costBasis, input.policy.stopLoss)
  }

  function ExitStep(input: PortfolioInput, prices: map<int, int>, signals: map<int, Signal>, d: Draft, n: nat,
                    stop: bool): (r: Result<Draft>)
    requires n < |d.positions|
    ensures r.Ok? ==> |r.value.positions| == |d.positions|
  {
    var p := d.positions[n];
    if p.quantity <= 0 then Ok(d)
    else if p.reservedQuantity != 0 then Err(VersionConflict)
    else if p.instrument !in prices then Err(DataStale)
    else
      var gross :- GrossValue(prices[p.instrument], p.quantity);
      if stop then
        if LossReached(input, p, gross) then AppendSell(input, prices, d, n, p.quantity, StopLoss) else Ok(d)
      else if p.instrument !in d.blocked && p.instrument in signals
              && signals[p.instrument].score < input.parameters.exitScore then
        AppendSell(input, prices, d, n, p.quantity, ExitSignal)
      else Ok(d)
  }

  function ExitPass(input: PortfolioInput, prices: map<int, int>, signals: map<int, Signal>, d: Draft, n: nat,
                    stop: bool): (r: Result<Draft>)
    requires n <= |d.positions|
    ensures r.Ok? ==> |r.value.positions| == |d.positions|
  {
    if n == 0 then Ok(d)
    else
      var before :- ExitPass(input, prices, signals, d, n - 1, stop);
      ExitStep(input, prices, signals, before, n - 1, stop)
  }

  datatype Cap = SingleCap | IndustryCap | StockCap

  function CapReason(cap: Cap): Reason {
    match cap
    case SingleCap => ReduceSingleRisk
    case IndustryCap => ReduceIndustryRisk
    case StockCap => ReduceStockRisk
  }

  function CapLimit(input: PortfolioInput, cap: Cap): int {
    match cap
    case SingleCap => MoneyLimit(input.nav, input.policy.singleWeight)
    case IndustryCap => MoneyLimit(input.nav, input.policy.industryWeight)
    case StockCap => MoneyLimit(input.nav, input.policy.stockWeight)
  }

  function IndustryOf(instruments: map<int, Instrument>, id: int): int {
    if id in instruments then instruments[id].industry else UNKNOWN_INDUSTRY
  }

  function CapExposure(e: Exposure, instruments: map<int, Instrument>, id: int, cap: Cap): int {
    match cap
    case SingleCap => At(e.byId, id)
    case IndustryCap => At(e.byIndustry, IndustryOf(instruments, id))
    case StockCap => e.stocks
  }

  /** The largest holding whose value is within what the cap leaves the name. */
  function KeptQuantity(price: int, quantity: int, value: int, excess: int): int {
    MaxWholeQuantity(quantity, GrossWithin(price, NotBelowZero(value - excess)))
  }

  function ReduceStep(input: PortfolioInput, prices: map<int, int>, instruments: map<int, Instrument>, d: Draft, n: nat,
                      cap: Cap): (r: Result<Draft>)
    requires n < |d.positions|
    ensures r.Ok? ==> |r.value.positions| == |d.positions|
  {
    var p := d.positions[n];
    if p.quantity <= 0 then Ok(d)
    else
      var e :- PortfolioExposure(d.positions, [], prices, instruments, None);
      var excess := CapExposure(e, instruments, p.instrument, cap) - CapLimit(input, cap);
      if excess <= 0 then Ok(d)
      else
        var kept := KeptQuantity(At(prices, p.instrument), p.quantity, At(e.byId, p.instrument), excess);
        AppendSell(input, prices, d, n, p.quantity - kept, CapReason(cap))
  }

  function ReducePass(input: PortfolioInput, prices: map<int, int>, instruments: map<int, Instrument>, d: Draft, n: nat,
                      cap: Cap): (r: Result<Draft>)
    requires n <= |d.positions|
    ensures r.Ok? ==> |r.value.positions| == |d.positions|
  {
    if n == 0 then Ok(d)
    else
      var before :- ReducePass(input, prices, instruments, d, n - 1, cap);
      ReduceStep(input, prices, instruments, before, n - 1, cap)
  }

  // ---------- Buys ----------

  function HeldRows(positions: seq<Position>): (m: map<int, int>)
    ensures forall id :: id in m ==> 0 <= m[id] < |positions| && positions[m[id]].instrument == id
    ensures forall k :: 0 <= k < |positions| ==> positions[k].instrument in m
  {
    if positions == [] then map[]
    else HeldRows(positions[..|positions| - 1])[positions[|positions| - 1].instrument := |positions| - 1]
  }

  function CountHoldings(positions: seq<Position>): nat {
    if positions == [] then 0
    else CountHoldings(positions[..|positions| - 1]) + if positions[|positions| - 1].quantity > 0 then 1 else 0
  }

  predicate SoundHeld(d: Draft) {
    forall id :: id in d.held ==> 0 <= d.held[id] < |d.positions| && d.positions[d.held[id]].instrument == id
  }

  function CurrentQuantity(d: Draft, id: int): int
    requires SoundHeld(d)
  {
    if id in d.held then d.positions[d.held[id]].quantity else 0
  }

  function BuyRequest(input: PortfolioInput, d: Draft, id: int, price: int, quantity: int): RiskInput {
    RiskInput(input.account.(balances := input.account.balances.(available := d.cash)), d.positions, [], input.snapshot,
              input.evaluation, id, Buy, NoReason, None, quantity, price, input.nav, input.peakNav, input.policy,
              d.turnover, true, None, input.prices, input.parameters, 0)
  }

  function DesiredTotal(input: PortfolioInput, price: int): int {
    MaxWholeQuantity(MAX_ORDER_QUANTITY, GrossWithin(price, CapLimit(input, SingleCap)))
  }

  /** Whether the name is far enough below its target to be topped up. */
  function OutsideBand(input: PortfolioInput, price: int, current: int): Result<bool> {
    var value :- if current > 0 then GrossValue(price, current) else Ok(0);
    Ok(CapLimit(input, SingleCap) - value >= MoneyLimit(input.nav, input.parameters.rebalanceBand))
  }

  function Project(d: Draft, id: int, quantity: int): (r: Draft)
    requires SoundHeld(d)
    ensures SoundHeld(r)
  {
    if id in d.held then
      var n := d.held[id];
      var p := d.positions[n];
      d.(positions := d.positions[n := p.(quantity := p.quantity + quantity)],
         holdings := if p.quantity == 0 then d.holdings + 1 else d.holdings)
    else
      d.(positions := d.positions + [Position(id, quantity, 0, 0)],
         held := d.held[id := |d.positions|],
         holdings := d.holdings + 1)
  }

  predicate Candidate(input: PortfolioInput, d: Draft, s: Signal) {
    s.score >= input.parameters.entryScore && s.level != HighRisk && s.level != UnknownRisk
      && s.instrument !in d.blocked
  }

  /** How many shares of a candidate to buy; 0 when it is full, within the band or refused. */
  function BuySize(input: PortfolioInput, price: int, d: Draft, id: int): Result<int>
    requires SoundHeld(d)
  {
    var current := CurrentQuantity(d, id);
    if current == 0 && d.holdings >= input.parameters.maxHoldings then Ok(0)
    else
      var outside :- OutsideBand(input, price, current);
      var desired := DesiredTotal(input, price) - current;
      if !outside || desired <= 0 then Ok(0)
      else
        var decision :- ValidateOrder(BuyRequest(input, d, id, price, desired));
        Ok(if desired > decision.maxQuantity then decision.maxQuantity else desired)
  }

  function AppendBuy(d: Draft, id: int, price: int, size: int): (r: Result<Draft>)
    requires SoundHeld(d)
    ensures r.Ok? ==> SoundHeld(r.value)
  {
    var gross :- GrossValue(price, size);
    var cost :- PurchaseCost(price, size);
    var turnover :- AddMoney(d.turnover, gross);
    Ok(Project(d, id, size).(cash := d.cash - cost, turnover := turnover,
                             orders := d.orders + [PlannedOrder(id, Buy, EntrySignal, size)]))
  }

  function BuyStep(input: PortfolioInput, prices: map<int, int>, d: Draft, s: Signal): (r: Result<Draft>)
    requires SoundHeld(d)
    ensures r.Ok? ==> SoundHeld(r.value)
  {
    var id := s.instrument;
    if !Candidate(input, d, s) then Ok(d)
    else if id !in prices then Ok(d.(notes := d.notes + [CandidatePriceMissing]))
    else
      var size :- BuySize(input, prices[id], d, id);
      if size <= 0 then Ok(d) else AppendBuy(d, id, prices[id], size)
  }

  function BuyPass(input: PortfolioInput, prices: map<int, int>, d: Draft, ranked: seq<Signal>,
                   n: nat): (r: Result<Draft>)
    requires n <= |ranked| && SoundHeld(d)
    ensures r.Ok? ==> SoundHeld(r.value)
  {
    if n == 0 then Ok(d)
    else
      var before :- BuyPass(input, prices, d, ranked, n - 1);
      BuyStep(input, prices, before, ranked[n - 1])
  }

  // ---------- The plan ----------

  function StartDraft(input: PortfolioInput): Draft {
    Draft(SortPositions(input.positions), input.sessionTurnover, input.account.balances.available, [], [], {}, map[], 0)
  }

  function AfterExits(input: PortfolioInput, prices: map<int, int>): Result<Draft> {
    var signals := SignalsById(Sort(input.evaluation.signals, ByScore()));
    var start := StartDraft(input);
    var stopped :- ExitPass(input, prices, signals, start, |start.positions|, true);
    ExitPass(input, prices, signals, stopped, |stopped.positions|, false)
  }

  function AfterReductions(input: PortfolioInput, prices: map<int, int>,
                           instruments: map<int, Instrument>): Result<Draft> {
    var exits :- AfterExits(input, prices);
    var single :- ReducePass(input, prices, instruments, exits, |exits.positions|, SingleCap);
    var sector :- ReducePass(input, prices, instruments, single, |single.positions|, IndustryCap);
    ReducePass(input, prices, instruments, sector, |sector.positions|, StockCap)
  }

  function ReadyToBuy(d: Draft): (r: Draft)
    ensures SoundHeld(r)
  {
    d.(held := HeldRows(d.positions), holdings := CountHoldings(d.positions))
  }

  function FinalDraft(input: PortfolioInput, prices: map<int, int>, instruments: map<int, Instrument>): Result<Draft> {
    var reduced :- AfterReductions(input, prices, instruments);
    var ranked := Sort(input.evaluation.signals, ByScore());
    BuyPass(input, prices, ReadyToBuy(reduced), ranked, |ranked|)
  }

  predicate Unresolved(orders: seq<Order>) {
    exists n :: 0 <= n < |orders| && !orders[n].Terminal()
  }

  function BuildRebalance(input: PortfolioInput): Result<RebalancePlan> {
    if !input.parameters.Valid() || !input.policy.Valid() || input.nav <= 0 || input.peakNav < 0
       || input.sessionTurnover < 0 then Err(InvalidInput)
    else if DrawdownReached(input.nav, input.peakNav, input.policy.drawdownPause) then
      Ok(RebalancePlan([], true, [DrawdownPaused]))
    else if Unresolved(input.orders) then Ok(RebalancePlan([], false, [UnresolvedOrders]))
    else
      var prices :- Quotes(input.snapshot, input.prices);
      var d :- FinalDraft(input, prices, InstrumentsById(input.snapshot.instruments));
      Ok(RebalancePlan(d.orders, false, d.notes + if input.evaluation.completed then [] else [InsufficientEvidence]))
  }
}
