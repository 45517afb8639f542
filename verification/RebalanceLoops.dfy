/** The rebalancing plan as the engine builds it: four passes of sells over the rows, then one pass of buys. */
module RebalanceLoops {
  import opened Outcomes
  import opened Money
  import opened Sizing
  import opened Domain
  import opened Lists
  import opened Snapshots
  import Risk
  import RiskLoops
  import MarketLoops
  import B = Rebalance

  // ---------- Sells ----------

  method AppendSell(input: B.PortfolioInput, prices: map<int, int>, d: B.Draft, n: nat, quantity: int, reason: Reason)
    returns (r: Result<B.Draft>)
    requires n < |d.positions|
    ensures r == B.AppendSell(input, prices, d, n, quantity, reason)
  {
    hide Risk.ValidateOrder;
    if quantity <= 0 {
      return Ok(d);
    }
    var p := d.positions[n];
    var price := Risk.At(prices, p.instrument);
    var decision := RiskLoops.ValidateOrder(B.SellRequest(input, d, n, price, quantity, reason));
    if decision.Err? {
      return Err(decision.error);
    }
    var size := quantity;
    if size > decision.value.maxQuantity {
      size := decision.value.maxQuantity;
    }
    if size <= 0 {
      return Ok(d.(notes := d.notes + [B.TurnoverExhausted]));
    }
    var gross := GrossValue(price, size);
    if gross.Err? {
      return Err(gross.error);
    }
    var turnover := AddMoney(d.turnover, gross.value);
    if turnover.Err? {
      return Err(turnover.error);
    }
    r := Ok(d.(turnover := turnover.value,
               orders := d.orders + [B.PlannedOrder(p.instrument, Sell, reason, size)],
               positions := d.positions[n := p.(quantity := p.quantity - size)],
               blocked := d.blocked + {p.instrument}));
  }

  method ExitStep(input: B.PortfolioInput, prices: map<int, int>, signals: map<int, Risk.Signal>, d: B.Draft, n: nat,
                  stop: bool)
    returns (r: Result<B.Draft>)
    requires n < |d.positions|
    ensures r == B.ExitStep(input, prices, signals, d, n, stop)
  {
    hide B.AppendSell;
    var p := d.positions[n];
    if p.quantity <= 0 {
      return Ok(d);
    }
    if p.reservedQuantity != 0 {
      return Err(VersionConflict);
    }
    if p.instrument !in prices {
      return Err(DataStale);
    }
    var gross := GrossValue(prices[p.instrument], p.quantity);
    if gross.Err? {
      return Err(gross.error);
    }
    if stop {
      if !B.LossReached(input, p, gross.value) {
        return Ok(d);
      }
      r := AppendSell(input, prices, d, n, p.quantity, StopLoss);
    } else {
      if p.instrument in d.blocked || p.instrument !in signals
         || signals[p.instrument].score >= input.parameters.exitScore
      {
        return Ok(d);
      }
      r := AppendSell(input, prices, d, n, p.quantity, ExitSignal);
    }
  }

  lemma {:induction false} RefusedExits(input: B.PortfolioInput, prices: map<int, int>, signals: map<int, Risk.Signal>,
                                        d: B.Draft, n: nat, m: nat, stop: bool)
    requires n <= m <= |d.positions| && B.ExitPass(input, prices, signals, d, n, stop).Err?
    ensures B.ExitPass(input, prices, signals, d, m, stop) == B.ExitPass(input, prices, signals, d, n, stop)
  {
    hide B.ExitStep;
    if n < m {
      RefusedExits(input, prices, signals, d, n, m - 1, stop);
    }
  }

  method ExitPass(input: B.PortfolioInput, prices: map<int, int>, signals: map<int, Risk.Signal>, d: B.Draft,
                  stop: bool)
    returns (r: Result<B.Draft>)
    ensures r == B.ExitPass(input, prices, signals, d, |d.positions|, stop)
  {
    hide B.ExitStep;
    var draft := d;
    for n := 0 to |d.positions|
      invariant B.ExitPass(input, prices, signals, d, n, stop) == Ok(draft)
    {
      var next := ExitStep(input, prices, signals, draft, n, stop);
      if next.Err? {
        RefusedExits(input, prices, signals, d, n + 1, |d.positions|, stop);
        return next;
      }
      draft := next.value;
    }
    r := Ok(draft);
  }

  /** The exposure is recomputed before each reduction: the sells so far have changed it. */
  method ReduceStep(input: B.PortfolioInput, prices: map<int, int>, instruments: map<int, Instrument>, d: B.Draft,
                    n: nat, cap: B.Cap)
    returns (r: Result<B.Draft>)
    requires n < |d.positions|
    ensures r == B.ReduceStep(input, prices, instruments, d, n, cap)
  {
    hide B.AppendSell;
    hide Risk.PortfolioExposure;
    hide Risk.MoneyLimit;
    hide MaxWholeQuantity;
    var p := d.positions[n];
    if p.quantity <= 0 {
      return Ok(d);
    }
    var e := RiskLoops.PortfolioExposure(d.positions, [], prices, instruments, None);
    if e.Err? {
      return Err(e.error);
    }
    var excess := B.CapExposure(e.value, instruments, p.instrument, cap) - B.CapLimit(input, cap);
    if excess <= 0 {
      return Ok(d);
    }
    var room := Risk.NotBelowZero(Risk.At(e.value.byId, p.instrument) - excess);
    var kept := FindMaxWholeQuantity(p.quantity, GrossWithin(Risk.At(prices, p.instrument), room));
    r := AppendSell(input, prices, d, n, p.quantity - kept, B.CapReason(cap));
  }

  lemma {:induction false} RefusedReductions(input: B.PortfolioInput, prices: map<int, int>,
                                             instruments: map<int, Instrument>, d: B.Draft, n: nat, m: nat, cap: B.Cap)
    requires n <= m <= |d.positions| && B.ReducePass(input, prices, instruments, d, n, cap).Err?
    ensures B.ReducePass(input, prices, instruments, d, m, cap) == B.ReducePass(input, prices, instruments, d, n, cap)
  {
    hide B.ReduceStep;
    if n < m {
      RefusedReductions(input, prices, instruments, d, n, m - 1, cap);
    }
  }

  method ReducePass(input: B.PortfolioInput, prices: map<int, int>, instruments: map<int, Instrument>, d: B.Draft,
                    cap: B.Cap)
    returns (r: Result<B.Draft>)
    ensures r == B.ReducePass(input, prices, instruments, d, |d.positions|, cap)
  {
    hide B.ReduceStep;
    var draft := d;
    for n := 0 to |d.positions|
      invariant B.ReducePass(input, prices, instruments, d, n, cap) == Ok(draft)
    {
      var next := ReduceStep(input, prices, instruments, draft, n, cap);
      if next.Err? {
        RefusedReductions(input, prices, instruments, d, n + 1, |d.positions|, cap);
        return next;
      }
      draft := next.value;
    }
    r := Ok(draft);
  }

  method SignalsById(ranked: seq<Risk.Signal>) returns (m: map<int, Risk.Signal>)
    ensures m == B.SignalsById(ranked)
  {
    m := map[];
    for n := 0 to |ranked|
      invariant m == B.SignalsById(ranked[..n])
    {
      assert ranked[..n + 1][..n] == ranked[..n];
      m := m[ranked[n].instrument := ranked[n]];
    }
    assert ranked[..|ranked|] == ranked;
  }

  method Sells(input: B.PortfolioInput, prices: map<int, int>, instruments: map<int, Instrument>,
               ranked: seq<Risk.Signal>)
    returns (r: Result<B.Draft>)
    requires ranked == Sort(input.evaluation.signals, B.ByScore())
    ensures r == B.AfterReductions(input, prices, instruments)
  {
    hide B.ExitPass;
    hide B.ReducePass;
    hide Sort;
    var signals := SignalsById(ranked);
    hide B.SignalsById;
    r := ExitPass(input, prices, signals, B.StartDraft(input), true);
    if r.Err? {
      return;
    }
    r := ExitPass(input, prices, signals, r.value, false);
    if r.Err? {
      return;
    }
    r := ReducePass(input, prices, instruments, r.value, B.SingleCap);
    if r.Err? {
      return;
    }
    r := ReducePass(input, prices, instruments, r.value, B.IndustryCap);
    if r.Err? {
      return;
    }
    r := ReducePass(input, prices, instruments, r.value, B.StockCap);
  }

  // ---------- Buys ----------

  method IndexRows(d: B.Draft) returns (r: B.Draft)
    ensures r == B.ReadyToBuy(d)
  {
    var held: map<int, int>, holdings := map[], 0;
    for n := 0 to |d.positions|
      invariant held == B.HeldRows(d.positions[..n]) && holdings == B.CountHoldings(d.positions[..n])
    {
      assert d.positions[..n + 1][..n] == d.positions[..n];
      held := held[d.positions[n].instrument := n];
      if d.positions[n].quantity > 0 {
        holdings := holdings + 1;
      }
    }
    assert d.positions[..|d.positions|] == d.positions;
    r := d.(held := held, holdings := holdings);
  }

  method BuySize(input: B.PortfolioInput, price: int, d: B.Draft, id: int) returns (r: Result<int>)
    requires B.SoundHeld(d)
    ensures r == B.BuySize(input, price, d, id)
  {
    hide Risk.ValidateOrder;
    hide Risk.MoneyLimit;
    hide MaxWholeQuantity;
    var current := B.CurrentQuantity(d, id);
    if current == 0 && d.holdings >= input.parameters.maxHoldings {
      return Ok(0);
    }
    var target := B.CapLimit(input, B.SingleCap);
    var value := 0;
    if current > 0 {
      var gross := GrossValue(price, current);
      if gross.Err? {
        return Err(gross.error);
      }
      value := gross.value;
    }
    if target - value < Risk.MoneyLimit(input.nav, input.parameters.rebalanceBand) {
      return Ok(0);
    }
    var total := FindMaxWholeQuantity(MAX_ORDER_QUANTITY, GrossWithin(price, target));
    var desired := total - current;
    if desired <= 0 {
      return Ok(0);
    }
    var decision := RiskLoops.ValidateOrder(B.BuyRequest(input, d, id, price, desired));
    if decision.Err? {
      return Err(decision.error);
    }
    if desired > decision.value.maxQuantity {
      desired := decision.value.maxQuantity;
    }
    r := Ok(desired);
  }

  method BuyStep(input: B.PortfolioInput, prices: map<int, int>, d: B.Draft, s: Risk.Signal)
    returns (r: Result<B.Draft>)
    requires B.SoundHeld(d)
    ensures r == B.BuyStep(input, prices, d, s)
  {
    hide B.BuySize;
    hide PurchaseCost;
    var id := s.instrument;
    if s.score < input.parameters.entryScore || s.level == Risk.HighRisk || s.level == Risk.UnknownRisk
       || id in d.blocked {
      return Ok(d);
    }
    if id !in prices {
      return Ok(d.(notes := d.notes + [B.CandidatePriceMissing]));
    }
    var size := BuySize(input, prices[id], d, id);
    if size.Err? {
      return Err(size.error);
    }
    if size.value <= 0 {
      return Ok(d);
    }
    var gross := GrossValue(prices[id], size.value);
    if gross.Err? {
      return Err(gross.error);
    }
    var cost := PurchaseCost(prices[id], size.value);
    if cost.Err? {
      return Err(cost.error);
    }
    var turnover := AddMoney(d.turnover, gross.value);
    if turnover.Err? {
      return Err(turnover.error);
    }
    r := Ok(B.Project(d, id, size.value).(cash := d.cash - cost.value, turnover := turnover.value,
                                          orders := d.orders + [B.PlannedOrder(id, Buy, EntrySignal, size.value)]));
  }

  lemma {:induction false} RefusedBuys(input: B.PortfolioInput, prices: map<int, int>, d: B.Draft,
                                       ranked: seq<Risk.Signal>, n: nat, m: nat)
    requires n <= m <= |ranked| && B.SoundHeld(d) && B.BuyPass(input, prices, d, ranked, n).Err?
    ensures B.BuyPass(input, prices, d, ranked, m) == B.BuyPass(input, prices, d, ranked, n)
  {
    hide B.BuyStep;
    if n < m {
      RefusedBuys(input, prices, d, ranked, n, m - 1);
    }
  }

  /** Buys in the order of the scores, with running cash, turnover and number of holdings. */
  method BuyPass(input: B.PortfolioInput, prices: map<int, int>, d: B.Draft, ranked: seq<Risk.Signal>)
    returns (r: Result<B.Draft>)
    requires B.SoundHeld(d)
    ensures r == B.BuyPass(input, prices, d, ranked, |ranked|)
  {
    hide B.BuyStep;
    var draft := d;
    for n := 0 to |ranked|
      invariant B.SoundHeld(draft) && B.BuyPass(input, prices, d, ranked, n) == Ok(draft)
    {
      var next := BuyStep(input, prices, draft, ranked[n]);
      if next.Err? {
        RefusedBuys(input, prices, d, ranked, n + 1, |ranked|);
        return next;
      }
      draft := next.value;
    }
    r := Ok(draft);
  }

  // ---------- The plan ----------

  method AnyOpen(orders: seq<Order>) returns (open: bool)
    ensures open == B.Unresolved(orders)
  {
    for n := 0 to |orders|
      invariant forall k :: 0 <= k < n ==> orders[k].Terminal()
    {
      if !orders[n].Terminal() {
        return true;
      }
    }
    open := false;
  }

  method BuildRebalance(input: B.PortfolioInput) returns (r: Result<B.RebalancePlan>)
    ensures r == B.BuildRebalance(input)
  {
    hide Quotes;
    hide InstrumentsById;
    hide B.AfterReductions;
    hide B.BuyPass;
    hide B.ReadyToBuy;
    hide Sort;
    if !input.parameters.Valid() || !input.policy.Valid() || input.nav <= 0 || input.peakNav < 0
       || input.sessionTurnover < 0 {
      return Err(InvalidInput);
    }
    if Risk.DrawdownReached(input.nav, input.peakNav, input.policy.drawdownPause) {
      return Ok(B.RebalancePlan([], true, [B.DrawdownPaused]));
    }
    var open := AnyOpen(input.orders);
    hide B.Unresolved;
    if open {
      return Ok(B.RebalancePlan([], false, [B.UnresolvedOrders]));
    }
    var prices := MarketLoops.QuoteBook(input.snapshot, input.prices);
    if prices.Err? {
      return Err(prices.error);
    }
    var instruments := RiskLoops.CatalogOf(input.snapshot.instruments);
    var ranked := Sort(input.evaluation.signals, B.ByScore());
    var draft := Sells(input, prices.value, instruments, ranked);
    if draft.Err? {
      return Err(draft.error);
    }
    var ready := IndexRows(draft.value);
    draft := BuyPass(input, prices.value, ready, ranked);
    if draft.Err? {
      return Err(draft.error);
    }
    var notes := draft.value.notes;
    if !input.evaluation.completed {
      notes := notes + [B.InsufficientEvidence];
    }
    assert draft.value.notes + [] == draft.value.notes;
    r := Ok(B.RebalancePlan(draft.value.orders, false, notes));
  }
}
