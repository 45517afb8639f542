/** Risk limits as the engine computes them: exposure, turnover and value accumulated over positions and orders. */
module RiskLoops {
  import opened Outcomes
  import opened Money
  import opened Sizing
  import opened Domain
  import opened Sums
  import opened Snapshots
  import MarketLoops
  import R = Risk

  // ---------- Exposure ----------

  lemma {:induction false} RefusedHoldings(positions: seq<Position>, prices: map<int, int>,
                                           instruments: map<int, Instrument>, n: nat)
    requires n <= |positions| && R.HoldingsExposure(positions[..n], prices, instruments).Err?
    ensures R.HoldingsExposure(positions, prices, instruments)
         == R.HoldingsExposure(positions[..n], prices, instruments)
  {
    if n < |positions| {
      assert positions[..|positions| - 1][..n] == positions[..n];
      RefusedHoldings(positions[..|positions| - 1], prices, instruments, n);
    } else {
      assert positions[..n] == positions;
    }
  }

  method HoldingsExposure(positions: seq<Position>, prices: map<int, int>, instruments: map<int, Instrument>)
    returns (r: Result<R.Exposure>)
    ensures r == R.HoldingsExposure(positions, prices, instruments)
  {
    hide R.AddExposure;
    hide GrossValue;
    var total := R.NO_EXPOSURE;
    var seen: set<int> := {};
    for n := 0 to |positions|
      invariant R.HoldingsExposure(positions[..n], prices, instruments) == Ok(total)
      invariant forall id :: id in seen <==> exists k :: 0 <= k < n && positions[k].instrument == id
    {
      var p := positions[n];
      assert positions[..n + 1][..n] == positions[..n] && positions[..n + 1][n] == p;
      if p.instrument in seen || p.quantity < 0 || p.reservedQuantity < 0 || p.reservedQuantity > p.quantity
         || p.costBasis < 0 {
        assert !R.WellFormedRow(positions[..n + 1], n);
        RefusedHoldings(positions, prices, instruments, n + 1);
        return Err(InvalidInput);
      }
      assert R.WellFormedRow(positions[..n + 1], n);
      hide R.WellFormedRow;
      seen := seen + {p.instrument};
      if p.quantity != 0 {
        if p.instrument !in prices {
          RefusedHoldings(positions, prices, instruments, n + 1);
          return Err(DataStale);
        }
        var value := GrossValue(prices[p.instrument], p.quantity);
        if value.Err? {
          RefusedHoldings(positions, prices, instruments, n + 1);
          return Err(value.error);
        }
        var added := R.AddExposure(total, instruments, p.instrument, value.value);
        if added.Err? {
          RefusedHoldings(positions, prices, instruments, n + 1);
          return Err(added.error);
        }
        total := added.value;
      }
    }
    assert positions[..|positions|] == positions;
    r := Ok(total);
  }

  lemma {:induction false} RefusedOrders(e: R.Exposure, orders: seq<Order>, instruments: map<int, Instrument>,
                                         exclude: Option<OrderId>, n: nat)
    requires n <= |orders| && R.OrdersExposure(e, orders[..n], instruments, exclude).Err?
    ensures R.OrdersExposure(e, orders, instruments, exclude) == R.OrdersExposure(e, orders[..n], instruments, exclude)
  {
    if n < |orders| {
      assert orders[..|orders| - 1][..n] == orders[..n];
      RefusedOrders(e, orders[..|orders| - 1], instruments, exclude, n);
    } else {
      assert orders[..n] == orders;
    }
  }

  method PortfolioExposure(positions: seq<Position>, orders: seq<Order>, prices: map<int, int>,
                           instruments: map<int, Instrument>, exclude: Option<OrderId>) returns (r: Result<R.Exposure>)
    ensures r == R.PortfolioExposure(positions, orders, prices, instruments, exclude)
  {
    hide R.AddExposure;
    hide R.HoldingsExposure;
    var held := HoldingsExposure(positions, prices, instruments);
    if held.Err? {
      return held;
    }
    var total := held.value;
    for n := 0 to |orders|
      invariant R.OrdersExposure(held.value, orders[..n], instruments, exclude) == Ok(total)
    {
      var o := orders[n];
      assert orders[..n + 1][..n] == orders[..n];
      if exclude != Some(o.id) && !o.Terminal() && o.side == Buy {
        if o.reservedCash < 0 {
          RefusedOrders(held.value, orders, instruments, exclude, n + 1);
          return Err(InvalidInput);
        }
        var added := R.AddExposure(total, instruments, o.instrument, o.reservedCash);
        if added.Err? {
          RefusedOrders(held.value, orders, instruments, exclude, n + 1);
          return Err(added.error);
        }
        total := added.value;
      }
    }
    assert orders[..|orders|] == orders;
    r := Ok(total);
  }

  // ---------- Turnover and shares ----------

  lemma {:induction false} RefusedTurnover(budget: int, orders: seq<Order>, prices: map<int, int>,
                                           exclude: Option<OrderId>, targetOpenAt: int, n: nat)
    requires n <= |orders| && R.TurnoverAfter(budget, orders[..n], prices, exclude, targetOpenAt).Err?
    ensures R.TurnoverAfter(budget, orders, prices, exclude, targetOpenAt)
         == R.TurnoverAfter(budget, orders[..n], prices, exclude, targetOpenAt)
  {
    if n < |orders| {
      assert orders[..|orders| - 1][..n] == orders[..n];
      RefusedTurnover(budget, orders[..|orders| - 1], prices, exclude, targetOpenAt, n);
    } else {
      assert orders[..n] == orders;
    }
  }

  method TurnoverAfter(budget: int, orders: seq<Order>, prices: map<int, int>, exclude: Option<OrderId>,
                       targetOpenAt: int)
    returns (r: Result<int>)
    ensures r == R.TurnoverAfter(budget, orders, prices, exclude, targetOpenAt)
  {
    hide R.ClaimedTurnover;
    hide R.Competes;
    var turnover := budget;
    for n := 0 to |orders|
      invariant R.TurnoverAfter(budget, orders[..n], prices, exclude, targetOpenAt) == Ok(turnover)
    {
      assert orders[..n + 1][..n] == orders[..n];
      if R.Competes(orders[n], exclude, targetOpenAt) {
        var gross := R.ClaimedTurnover(orders[n], prices);
        if gross.Err? {
          RefusedTurnover(budget, orders, prices, exclude, targetOpenAt, n + 1);
          return Err(gross.error);
        }
        turnover := if gross.value > turnover then 0 else turnover - gross.value;
      }
    }
    assert orders[..|orders|] == orders;
    r := Ok(turnover);
  }

  lemma {:induction false} RefusedShares(positions: seq<Position>, id: int, n: nat)
    requires n <= |positions| && R.FreeShares(positions[..n], id).Err?
    ensures R.FreeShares(positions, id) == R.FreeShares(positions[..n], id)
  {
    if n < |positions| {
      assert positions[..|positions| - 1][..n] == positions[..n];
      RefusedShares(positions[..|positions| - 1], id, n);
    } else {
      assert positions[..n] == positions;
    }
  }

  /** The free shares of a name, and those an order of the account itself holds. */
  method AvailableShares(positions: seq<Position>, orders: seq<Order>, id: int, exclude: Option<OrderId>)
    returns (r: Result<int>)
    ensures var free := R.FreeShares(positions, id);
      r == if free.Err? then Err(free.error) else Ok(free.value + R.OwnShares(orders, exclude))
  {
    var available := 0;
    for n := 0 to |positions|
      invariant R.FreeShares(positions[..n], id) == Ok(available)
    {
      var p := positions[n];
      assert positions[..n + 1][..n] == positions[..n];
      if p.instrument == id {
        if p.reservedQuantity < 0 || p.reservedQuantity > p.quantity {
          RefusedShares(positions, id, n + 1);
          return Err(InvalidInput);
        }
        available := p.quantity - p.reservedQuantity;
      }
    }
    assert positions[..|positions|] == positions;
    if exclude.Some? {
      ghost var free := available;
      for n := 0 to |orders|
        invariant available == free + Sum(orders[..n], R.SharesOfOrder(exclude.value))
      {
        var o := orders[n];
        assert orders[..n + 1] == orders[..n] + [o];
        SumAppend(orders[..n], o, R.SharesOfOrder(exclude.value));
        if o.id == exclude.value && o.side == Sell && !o.Terminal() {
          available := available + o.reservedQuantity;
        }
      }
      assert orders[..|orders|] == orders;
    }
    r := Ok(available);
  }

  // ---------- Order sizing ----------

  method IsEligible(req: R.RiskInput) returns (eligible: bool)
    ensures eligible == R.EligibleCandidate(req)
  {
    eligible := false;
    for n := 0 to |req.evaluation.signals|
      invariant eligible <==> exists k :: 0 <= k < n && R.EligibleSignal(req, req.evaluation.signals[k])
    {
      var s := req.evaluation.signals[n];
      if req.evaluation.completed && s.instrument == req.instrument && s.score >= req.parameters.entryScore
         && 1 <= s.rank <= req.parameters.maxHoldings && (s.level == R.LowRisk || s.level == R.MediumRisk)
      {
        eligible := true;
      }
    }
  }

  method SellSizing(req: R.RiskInput, turnover: int) returns (r: Result<R.OrderSize>)
    ensures r == R.SellSizing(req, turnover)
  {
    var available := AvailableShares(req.positions, req.orders, req.instrument, req.exclude);
    if available.Err? {
      return Err(available.error);
    }
    if available.value < 0 {
      return Err(InvalidInput);
    }
    var limit := if available.value > MAX_ORDER_QUANTITY then MAX_ORDER_QUANTITY else available.value;
    r := Ok(R.Sized(limit, if EmergencySell(req.reason) then Unlimited else GrossWithin(req.price, turnover),
                    RiskLimitExceeded));
  }

  method BuySizing(req: R.RiskInput, prices: map<int, int>, instruments: map<int, Instrument>, industry: int,
                   turnover: int)
    returns (r: Result<R.OrderSize>)
    ensures r == R.BuySizing(req, prices, instruments, industry, turnover)
  {
    hide R.PortfolioExposure;
    hide R.MoneyLimit;
    if req.automatic {
      if !req.parameters.Valid() {
        return Err(InvalidInput);
      }
      var eligible := IsEligible(req);
      if !eligible {
        return Ok(R.Refused(CandidateIneligible));
      }
    }
    var exposure := PortfolioExposure(req.positions, req.orders, prices, instruments, req.exclude);
    if exposure.Err? {
      return Err(exposure.error);
    }
    var cash := req.account.balances.available;
    if req.budget.Some? {
      cash := req.budget.value;
    }
    if cash < 0 {
      return Err(InvalidInput);
    }
    var e := exposure.value;
    var single := R.MoneyLimit(req.nav, req.policy.singleWeight) - R.At(e.byId, req.instrument);
    var sector := R.MoneyLimit(req.nav, req.policy.industryWeight) - R.At(e.byIndustry, industry);
    var stocks := R.MoneyLimit(req.nav, req.policy.stockWeight) - e.stocks;
    r := Ok(R.Sized(MAX_ORDER_QUANTITY, BuyWithin(req.price, single, sector, stocks, turnover, cash),
                    if cash == 0 then NoSettledCash else RiskLimitExceeded));
  }

  method CatalogOf(instruments: seq<Instrument>) returns (m: map<int, Instrument>)
    ensures m == InstrumentsById(instruments)
  {
    m := map[];
    for n := 0 to |instruments|
      invariant m == InstrumentsById(instruments[..n])
    {
      assert instruments[..n + 1][..n] == instruments[..n];
      m := m[instruments[n].id := instruments[n]];
    }
    assert instruments[..|instruments|] == instruments;
  }

  method OrderSizing(req: R.RiskInput) returns (r: Result<R.OrderSize>)
    ensures r == R.OrderSizing(req)
  {
    hide Quotes;
    hide R.TurnoverAfter;
    hide R.SellSizing;
    hide R.BuySizing;
    hide InstrumentsById;
    var peak := if req.peakNav == 0 then req.account.initialCash else req.peakNav;
    if req.quantity <= 0 || req.quantity > MAX_ORDER_QUANTITY || req.price <= 0 || req.nav <= 0
       || req.sessionTurnover < 0 || !req.policy.Valid() || peak < 0
    {
      return Err(InvalidInput);
    }
    if req.side == Buy && R.DrawdownReached(req.nav, peak, req.policy.drawdownPause) {
      return Ok(R.Refused(DrawdownPause));
    }
    var quotes := MarketLoops.QuoteBook(req.snapshot, req.prices);
    if quotes.Err? {
      return Err(quotes.error);
    }
    var prices := quotes.value[req.instrument := req.price];
    var instruments := CatalogOf(req.snapshot.instruments);
    if req.instrument !in instruments || !instruments[req.instrument].isStock || !instruments[req.instrument].tradable {
      return Ok(R.Refused(InstrumentIneligible));
    }
    var industry := instruments[req.instrument].industry;
    if industry == UNKNOWN_INDUSTRY {
      return Ok(R.Refused(IndustryUnknown));
    }
    var left := TurnoverAfter(R.MoneyLimit(req.nav, req.policy.turnoverLimit) - req.sessionTurnover, req.orders, prices,
                              req.exclude, req.targetOpenAt);
    if left.Err? {
      return Err(left.error);
    }
    var turnover := left.value;
    if turnover < 0 {
      turnover := 0;
    }
    if req.side == Sell {
      r := SellSizing(req, turnover);
    } else {
      r := BuySizing(req, prices, instruments, industry, turnover);
    }
  }

  lemma SizedInRange(req: R.RiskInput)
    requires R.OrderSizing(req).Ok? && R.OrderSizing(req).value.Sized?
    ensures R.OrderSizing(req).value.limit >= 0
  {
    hide Quotes;
    hide R.TurnoverAfter;
    hide R.PortfolioExposure;
    hide InstrumentsById;
    hide R.MoneyLimit;
  }

  /** The binary search over the test of the order finds the largest size allowed. */
  method ValidateOrder(req: R.RiskInput) returns (r: Result<R.RiskDecision>)
    ensures r == R.ValidateOrder(req)
    ensures r.Ok? && R.OrderSizing(req).value.Sized? ==>
      IsLargest(R.OrderSizing(req).value.test, R.OrderSizing(req).value.limit, r.value.maxQuantity)
  {
    var size := OrderSizing(req);
    if size.Err? {
      return Err(size.error);
    }
    if size.value.Refused? {
      return Ok(R.RiskDecision(false, size.value.why, 0));
    }
    SizedInRange(req);
    hide R.OrderSizing;
    var max := FindMaxWholeQuantity(size.value.limit, size.value.test);
    var allowed := req.quantity <= max;
    var reason := if max == 0 then size.value.short else RiskLimitExceeded;
    if allowed {
      reason := NoReason;
    }
    r := Ok(R.RiskDecision(allowed, reason, max));
  }

  // ---------- Net asset value ----------

  lemma {:induction false} RefusedNav(total: int, positions: seq<Position>, prices: map<int, int>, n: nat)
    requires n <= |positions| && R.AddHoldings(total, positions[..n], prices).Err?
    ensures R.AddHoldings(total, positions, prices) == R.AddHoldings(total, positions[..n], prices)
  {
    if n < |positions| {
      assert positions[..|positions| - 1][..n] == positions[..n];
      RefusedNav(total, positions[..|positions| - 1], prices, n);
    } else {
      assert positions[..n] == positions;
    }
  }

  method ComputeNAV(account: Account, positions: seq<Position>, s: Snapshot, overrides: map<int, int>)
    returns (r: Result<int>)
    ensures r == R.ComputeNAV(account, positions, s, overrides)
  {
    hide Quotes;
    hide GrossValue;
    var cash := TotalCash(account.balances);
    if cash.Err? {
      return Err(cash.error);
    }
    var prices := MarketLoops.QuoteBook(s, overrides);
    if prices.Err? {
      return Err(prices.error);
    }
    var total := cash.value;
    for n := 0 to |positions|
      invariant R.AddHoldings(cash.value, positions[..n], prices.value) == Ok(total)
    {
      var p := positions[n];
      assert positions[..n + 1][..n] == positions[..n];
      if p.quantity != 0 {
        if p.instrument !in prices.value {
          RefusedNav(cash.value, positions, prices.value, n + 1);
          return Err(DataStale);
        }
        var value := GrossValue(prices.value[p.instrument], p.quantity);
        if value.Err? {
          RefusedNav(cash.value, positions, prices.value, n + 1);
          return Err(value.error);
        }
        var sum := AddMoney(total, value.value);
        if sum.Err? {
          RefusedNav(cash.value, positions, prices.value, n + 1);
          return Err(sum.error);
        }
        total := sum.value;
      }
    }
    assert positions[..|positions|] == positions;
    r := Ok(total);
  }
}
