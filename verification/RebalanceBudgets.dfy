/** Every plan stays within the cash, the turnover and the shares the account has. */
module RebalanceBudgets {
  import opened Outcomes
  import opened Money
  import opened Sizing
  import opened Domain
  import opened Lists
  import opened Sums
  import opened Holdings
  import opened Snapshots
  import opened Risk
  import opened Rebalance
  import opened RebalanceSteps

  /** Turnover committed before the k-th planned order. */
  function TurnoverBefore(input: PortfolioInput, prices: map<int, int>, orders: seq<PlannedOrder>, k: nat): int
    requires k <= |orders|
  {
    input.sessionTurnover + Sum(orders[..k], GrossOf(prices))
  }

  predicate OrderInBudget(input: PortfolioInput, prices: map<int, int>, orders: seq<PlannedOrder>, k: nat)
    requires k < |orders|
  {
    && 0 < orders[k].quantity <= MAX_ORDER_QUANTITY
    && WithinTurnover(input, prices, TurnoverBefore(input, prices, orders, k), orders[k])
  }

  ghost predicate InBudget(input: PortfolioInput, prices: map<int, int>, orders: seq<PlannedOrder>) {
    && Sum(orders, CostOf(prices)) <= input.account.balances.available
    && (forall k :: 0 <= k < |orders| ==> OrderInBudget(input, prices, orders, k))
    && (forall id :: Sum(orders, SoldOf(id)) <= Held(input.positions, id) - Reserved(input.positions, id))
  }

  /** The cash and the turnover left by a plan that is within its budget. */
  ghost predicate Budgeted(input: PortfolioInput, prices: map<int, int>, cash: int, turnover: int,
                           orders: seq<PlannedOrder>) {
    && cash >= 0 && cash + Sum(orders, CostOf(prices)) == input.account.balances.available
    && turnover == TurnoverBefore(input, prices, orders, |orders|)
    && InBudget(input, prices, orders)
  }

  /** What a draft records of its own plan. */
  ghost predicate Accounted(input: PortfolioInput, prices: map<int, int>, d: Draft) {
    && Rows(d.positions)
    && Budgeted(input, prices, d.cash, d.turnover, d.orders)
    && (forall id :: Held(d.positions, id) == Held(input.positions, id) + Sum(d.orders, TradeOf(id)))
  }

  /** Until the first buy, what is left of a name is what was held less what was sold. */
  ghost predicate Selling(input: PortfolioInput, prices: map<int, int>, d: Draft) {
    && Accounted(input, prices, d)
    && (forall id :: Held(d.positions, id) == Held(input.positions, id) - Sum(d.orders, SoldOf(id)))
    && (forall id :: Reserved(d.positions, id) == Reserved(input.positions, id))
  }

  lemma OrdersExtend(input: PortfolioInput, prices: map<int, int>, orders: seq<PlannedOrder>, o: PlannedOrder)
    requires forall k :: 0 <= k < |orders| ==> OrderInBudget(input, prices, orders, k)
    requires 0 < o.quantity <= MAX_ORDER_QUANTITY
    requires WithinTurnover(input, prices, TurnoverBefore(input, prices, orders, |orders|), o)
    ensures forall k :: 0 <= k < |orders| + 1 ==> OrderInBudget(input, prices, orders + [o], k)
    ensures TurnoverBefore(input, prices, orders + [o], |orders| + 1)
         == TurnoverBefore(input, prices, orders, |orders|) + GrossOf(prices)(o)
    ensures Sum(orders + [o], CostOf(prices)) == Sum(orders, CostOf(prices)) + CostOf(prices)(o)
    ensures forall id :: Sum(orders + [o], SoldOf(id)) == Sum(orders, SoldOf(id)) + SoldOf(id)(o)
    ensures forall id :: Sum(orders + [o], TradeOf(id)) == Sum(orders, TradeOf(id)) + TradeOf(id)(o)
  {
    var all := orders + [o];
    forall k | 0 <= k < |orders| + 1
      ensures OrderInBudget(input, prices, all, k)
    {
      assert all[..k] == orders[..k];
      if k < |orders| {
        assert OrderInBudget(input, prices, orders, k);
      }
    }
    assert orders[..|orders|] == orders && all[..|orders| + 1] == all;
    SumAppend(orders, o, GrossOf(prices));
    SumAppend(orders, o, CostOf(prices));
    forall id
      ensures Sum(all, SoldOf(id)) == Sum(orders, SoldOf(id)) + SoldOf(id)(o)
      ensures Sum(all, TradeOf(id)) == Sum(orders, TradeOf(id)) + TradeOf(id)(o)
    {
      SumAppend(orders, o, SoldOf(id));
      SumAppend(orders, o, TradeOf(id));
    }
  }

  lemma BudgetExtends(input: PortfolioInput, prices: map<int, int>, cash: int, turnover: int, orders: seq<PlannedOrder>,
                      o: PlannedOrder)
    requires Budgeted(input, prices, cash, turnover, orders)
    requires 0 < o.quantity <= MAX_ORDER_QUANTITY && WithinTurnover(input, prices, turnover, o)
    requires 0 <= CostOf(prices)(o) <= cash
    requires forall id ::
      Sum(orders, SoldOf(id)) + SoldOf(id)(o) <= Held(input.positions, id) - Reserved(input.positions, id)
    ensures Budgeted(input, prices, cash - CostOf(prices)(o), turnover + GrossOf(prices)(o), orders + [o])
    ensures forall id :: Sum(orders + [o], SoldOf(id)) == Sum(orders, SoldOf(id)) + SoldOf(id)(o)
    ensures forall id :: Sum(orders + [o], TradeOf(id)) == Sum(orders, TradeOf(id)) + TradeOf(id)(o)
  {
    hide WithinTurnover;
    hide RoundedGross;
    hide PurchaseCost;
    OrdersExtend(input, prices, orders, o);
    hide OrderInBudget;
    hide TurnoverBefore;
    hide Sum;
  }

  /** Changing the quantity of one row changes the holding of that name only. */
  lemma ChangeRow(positions: seq<Position>, n: nat, quantity: int)
    requires Rows(positions) && n < |positions| && positions[n].reservedQuantity <= quantity
    ensures var after := positions[n := positions[n].(quantity := quantity)];
      && Rows(after)
      && (forall id :: Held(after, id) == Held(positions, id)
            + if id == positions[n].instrument then quantity - positions[n].quantity else 0)
      && (forall id :: Reserved(after, id) == Reserved(positions, id))
  {
    var after := positions[n := positions[n].(quantity := quantity)];
    forall id
      ensures Held(after, id)
           == Held(positions, id) + if id == positions[n].instrument then quantity - positions[n].quantity else 0
      ensures Reserved(after, id) == Reserved(positions, id)
    {
      SumUpdate(positions, n, after[n], SharesOf(id));
      SumUpdate(positions, n, after[n], ReservedSharesOf(id));
    }
  }

  lemma SellKeepsSelling(input: PortfolioInput, prices: map<int, int>, d: Draft, e: Draft, n: nat, size: int,
                         reason: Reason)
    requires n < |d.positions| && Selling(input, prices, d) && SellMade(input, prices, d, e, n, size, reason)
    ensures Selling(input, prices, e)
  {
    hide Budgeted;
    hide WithinTurnover;
    hide RoundedGross;
    var o := PlannedOrder(d.positions[n].instrument, Sell, reason, size);
    SellWithinFree(input, prices, d, n, o);
    BudgetExtends(input, prices, d.cash, d.turnover, d.orders, o);
    ChangeRow(d.positions, n, d.positions[n].quantity - size);
    hide Rows;
    hide Sum;
  }

  lemma SellWithinFree(input: PortfolioInput, prices: map<int, int>, d: Draft, n: nat, o: PlannedOrder)
    requires n < |d.positions| && Selling(input, prices, d)
    requires o.side == Sell && o.instrument == d.positions[n].instrument
    requires o.quantity <= d.positions[n].quantity - d.positions[n].reservedQuantity
    ensures d.cash >= 0
    ensures forall id ::
      Sum(d.orders, SoldOf(id)) + SoldOf(id)(o) <= Held(input.positions, id) - Reserved(input.positions, id)
  {
    RowTotals(d.positions, n);
    SoldWithinFree(input, prices, d, o.instrument);
    hide Selling;
    hide Sum;
    forall id
      ensures Sum(d.orders, SoldOf(id)) + SoldOf(id)(o) <= Held(input.positions, id) - Reserved(input.positions, id)
    {
      SoldWithinFree(input, prices, d, id);
    }
  }

  lemma SoldWithinFree(input: PortfolioInput, prices: map<int, int>, d: Draft, id: int)
    requires Selling(input, prices, d)
    ensures d.cash >= 0
    ensures Sum(d.orders, SoldOf(id)) <= Held(input.positions, id) - Reserved(input.positions, id)
    ensures Held(d.positions, id) == Held(input.positions, id) - Sum(d.orders, SoldOf(id))
    ensures Reserved(d.positions, id) == Reserved(input.positions, id)
  {
    hide OrderInBudget;
    hide TurnoverBefore;
  }

  lemma SellStepKeepsSelling(input: PortfolioInput, prices: map<int, int>, d: Draft, n: nat, quantity: int,
                             reason: Reason)
    requires n < |d.positions| && Selling(input, prices, d)
    requires AppendSell(input, prices, d, n, quantity, reason).Ok?
    ensures Selling(input, prices, AppendSell(input, prices, d, n, quantity, reason).value)
  {
    var size := AppendSellEffect(input, prices, d, n, quantity, reason);
    hide AppendSell;
    if size > 0 {
      SellKeepsSelling(input, prices, d, AppendSell(input, prices, d, n, quantity, reason).value, n, size, reason);
    }
  }

  lemma {:induction false} ExitPassKeepsSelling(input: PortfolioInput, prices: map<int, int>, signals: map<int, Signal>,
                                                d: Draft, n: nat, stop: bool)
    requires n <= |d.positions| && Selling(input, prices, d)
    requires ExitPass(input, prices, signals, d, n, stop).Ok?
    ensures Selling(input, prices, ExitPass(input, prices, signals, d, n, stop).value)
  {
    hide AppendSell;
    hide Selling;
    if n > 0 {
      ExitPassKeepsSelling(input, prices, signals, d, n - 1, stop);
      var before := ExitPass(input, prices, signals, d, n - 1, stop).value;
      var p := before.positions[n - 1];
      if AppendSell(input, prices, before, n - 1, p.quantity, StopLoss).Ok? {
        SellStepKeepsSelling(input, prices, before, n - 1, p.quantity, StopLoss);
      }
      if AppendSell(input, prices, before, n - 1, p.quantity, ExitSignal).Ok? {
        SellStepKeepsSelling(input, prices, before, n - 1, p.quantity, ExitSignal);
      }
    }
  }

  lemma {:induction false} ReducePassKeepsSelling(input: PortfolioInput, prices: map<int, int>,
                                                  instruments: map<int, Instrument>, d: Draft, n: nat, cap: Cap)
    requires n <= |d.positions| && Selling(input, prices, d)
    requires ReducePass(input, prices, instruments, d, n, cap).Ok?
    ensures Selling(input, prices, ReducePass(input, prices, instruments, d, n, cap).value)
  {
    hide AppendSell;
    hide Selling;
    if n > 0 {
      ReducePassKeepsSelling(input, prices, instruments, d, n - 1, cap);
      var before := ReducePass(input, prices, instruments, d, n - 1, cap).value;
      var p := before.positions[n - 1];
      var exposure := PortfolioExposure(before.positions, [], prices, instruments, None);
      if p.quantity > 0 && exposure.Ok? {
        var excess := CapExposure(exposure.value, instruments, p.instrument, cap) - CapLimit(input, cap);
        var kept := KeptQuantity(At(prices, p.instrument), p.quantity, At(exposure.value.byId, p.instrument), excess);
        if AppendSell(input, prices, before, n - 1, p.quantity - kept, CapReason(cap)).Ok? {
          SellStepKeepsSelling(input, prices, before, n - 1, p.quantity - kept, CapReason(cap));
        }
      }
    }
  }

  lemma NothingSold(positions: seq<Position>)
    requires Rows(positions)
    ensures forall id :: 0 <= Reserved(positions, id) <= Held(positions, id)
  {
    forall id
      ensures 0 <= Reserved(positions, id) <= Held(positions, id)
    {
      SumNonNegative(positions, ReservedSharesOf(id));
      SumMonotone(positions, ReservedSharesOf(id), SharesOf(id));
    }
  }

  lemma StartIsSelling(input: PortfolioInput, prices: map<int, int>)
    requires Rows(input.positions) && input.account.balances.available >= 0
    ensures Selling(input, prices, StartDraft(input))
  {
    SortKeepsRows(input.positions);
    NothingSold(input.positions);
  }

  lemma SellsAreAccounted(input: PortfolioInput, prices: map<int, int>, instruments: map<int, Instrument>)
    requires Rows(input.positions) && input.account.balances.available >= 0
    requires AfterReductions(input, prices, instruments).Ok?
    ensures Selling(input, prices, AfterReductions(input, prices, instruments).value)
  {
    var start := StartDraft(input);
    StartIsSelling(input, prices);
    hide Selling;
    hide StartDraft;
    hide Rows;
    hide ReduceStep;
    hide ExitStep;
    var signals := SignalsById(Sort(input.evaluation.signals, ByScore()));
    ExitPassKeepsSelling(input, prices, signals, start, |start.positions|, true);
    var stopped := ExitPass(input, prices, signals, start, |start.positions|, true).value;
    ExitPassKeepsSelling(input, prices, signals, stopped, |stopped.positions|, false);
    var exits := AfterExits(input, prices).value;
    ReducePassKeepsSelling(input, prices, instruments, exits, |exits.positions|, SingleCap);
    var single := ReducePass(input, prices, instruments, exits, |exits.positions|, SingleCap).value;
    ReducePassKeepsSelling(input, prices, instruments, single, |single.positions|, IndustryCap);
    var sector := ReducePass(input, prices, instruments, single, |single.positions|, IndustryCap).value;
    ReducePassKeepsSelling(input, prices, instruments, sector, |sector.positions|, StockCap);
  }

  // ---------- Buys ----------

  /** The index of rows a draft keeps is complete. */
  predicate IndexedRows(d: Draft) {
    SoundHeld(d) && forall n :: 0 <= n < |d.positions| ==> d.positions[n].instrument in d.held
  }

  lemma ProjectRows(d: Draft, id: int, size: int)
    requires Rows(d.positions) && IndexedRows(d) && size > 0
    ensures var e := Project(d, id, size);
      && Rows(e.positions) && IndexedRows(e)
      && (forall i :: Held(e.positions, i) == Held(d.positions, i) + if i == id then size else 0)
  {
    if id in d.held {
      ChangeRow(d.positions, d.held[id], d.positions[d.held[id]].quantity + size);
    } else {
      var row := Position(id, size, 0, 0);
      forall i
        ensures Held(d.positions + [row], i) == Held(d.positions, i) + if i == id then size else 0
      {
        SumAppend(d.positions, row, SharesOf(i));
      }
    }
  }

  /** What a buy adds to the plan and to the rows. */
  ghost predicate BuyAdds(input: PortfolioInput, prices: map<int, int>, d: Draft, e: Draft, id: int, size: int,
                          o: PlannedOrder)
    requires SoundHeld(d)
  {
    && o == PlannedOrder(id, Buy, EntrySignal, size)
    && 0 < size <= MAX_ORDER_QUANTITY && 0 <= CostOf(prices)(o) <= d.cash
    && WithinTurnover(input, prices, d.turnover, o)
    && e.positions == Project(d, id, size).positions && e.held == Project(d, id, size).held
    && e.orders == d.orders + [o] && e.cash == d.cash - CostOf(prices)(o)
    && e.turnover == d.turnover + GrossOf(prices)(o)
  }

  lemma BuyMadeAdds(input: PortfolioInput, prices: map<int, int>, instruments: map<int, Instrument>, d: Draft, e: Draft,
                    id: int, size: int)
    requires Accounted(input, prices, d) && IndexedRows(d)
    requires BuyMade(input, prices, instruments, d, e, id, size)
    ensures BuyAdds(input, prices, d, e, id, size, PlannedOrder(id, Buy, EntrySignal, size))
  {
    hide MoneyLimit;
    hide HoldingsExposure;
    hide WithinTurnover;
    hide GrossAtMost;
    hide Budgeted;
    hide Project;
    CostMonotone(prices[id], size, size);
    hide RoundedGross;
    hide PurchaseCost;
    assert CurrentQuantity(d, id) >= 0;
  }

  lemma BuyKeepsAccounts(input: PortfolioInput, prices: map<int, int>, d: Draft, e: Draft, id: int, size: int,
                         o: PlannedOrder)
    requires Accounted(input, prices, d) && IndexedRows(d)
    requires BuyAdds(input, prices, d, e, id, size, o)
    ensures Accounted(input, prices, e) && IndexedRows(e)
  {
    hide WithinTurnover;
    hide RoundedGross;
    hide PurchaseCost;
    hide Budgeted;
    hide Sum;
    SoldByPlan(input, prices, d);
    BudgetExtends(input, prices, d.cash, d.turnover, d.orders, o);
    ProjectRows(d, id, size);
    SameIndex(Project(d, id, size), e);
    hide Project;
    hide Rows;
    hide IndexedRows;
    hide CostOf;
    hide GrossOf;
    forall i
      ensures Held(e.positions, i) == Held(input.positions, i) + Sum(e.orders, TradeOf(i))
    {
      assert Held(d.positions, i) == Held(input.positions, i) + Sum(d.orders, TradeOf(i));
    }
  }

  lemma SameIndex(d: Draft, e: Draft)
    requires IndexedRows(d) && e.positions == d.positions && e.held == d.held
    ensures IndexedRows(e)
  {
  }

  lemma SoldByPlan(input: PortfolioInput, prices: map<int, int>, d: Draft)
    requires Accounted(input, prices, d)
    ensures forall id :: Sum(d.orders, SoldOf(id)) <= Held(input.positions, id) - Reserved(input.positions, id)
  {
    hide OrderInBudget;
    hide TurnoverBefore;
  }

  lemma BuyStepKeepsAccounts(input: PortfolioInput, prices: map<int, int>, d: Draft, s: Signal)
    requires Quotes(input.snapshot, input.prices) == Ok(prices) && input.nav > 0
    requires Accounted(input, prices, d) && IndexedRows(d)
    requires BuyStep(input, prices, d, s).Ok?
    ensures Accounted(input, prices, BuyStep(input, prices, d, s).value)
    ensures IndexedRows(BuyStep(input, prices, d, s).value)
  {
    BuyStepEffect(input, prices, d, s);
    var size := Bought(input, prices, d, s);
    hide BuyStep;
    if size > 0 {
      var e := BuyStep(input, prices, d, s).value;
      BuyMadeAdds(input, prices, InstrumentsById(input.snapshot.instruments), d, e, s.instrument, size);
      BuyKeepsAccounts(input, prices, d, e, s.instrument, size, PlannedOrder(s.instrument, Buy, EntrySignal, size));
    }
  }

  lemma {:induction false} BuyPassKeepsAccounts(input: PortfolioInput, prices: map<int, int>, d: Draft,
                                                ranked: seq<Signal>, n: nat)
    requires Quotes(input.snapshot, input.prices) == Ok(prices) && input.nav > 0
    requires n <= |ranked| && Accounted(input, prices, d) && IndexedRows(d)
    requires BuyPass(input, prices, d, ranked, n).Ok?
    ensures Accounted(input, prices, BuyPass(input, prices, d, ranked, n).value)
    ensures IndexedRows(BuyPass(input, prices, d, ranked, n).value)
  {
    hide BuyStep;
    hide Accounted;
    if n > 0 {
      BuyPassKeepsAccounts(input, prices, d, ranked, n - 1);
      BuyStepKeepsAccounts(input, prices, BuyPass(input, prices, d, ranked, n - 1).value, ranked[n - 1]);
    }
  }

  /** Cash, turnover and share discipline of every plan: buys cost no more than the free cash at the start (sale
      proceeds are never spent), each order other than a risk-reducing sell is within the turnover left by all the
      orders before it, and the sells of a name never exceed its free shares. */
  lemma PlanIsInBudget(input: PortfolioInput)
    requires Rows(input.positions) && input.account.balances.available >= 0
    requires BuildRebalance(input).Ok?
    ensures BuildRebalance(input).value.orders == []
            || (Quotes(input.snapshot, input.prices).Ok?
                && InBudget(input, Quotes(input.snapshot, input.prices).value, BuildRebalance(input).value.orders))
  {
    if BuildRebalance(input).value.orders != [] {
      var prices := Quotes(input.snapshot, input.prices).value;
      var instruments := InstrumentsById(input.snapshot.instruments);
      SellsAreAccounted(input, prices, instruments);
      var ready := ReadyToBuy(AfterReductions(input, prices, instruments).value);
      var ranked := Sort(input.evaluation.signals, ByScore());
      BuyPassKeepsAccounts(input, prices, ready, ranked, |ranked|);
    }
  }
}
