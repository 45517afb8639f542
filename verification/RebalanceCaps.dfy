/** The portfolio a plan leads to respects the single-name, industry and stock limits. */
module RebalanceCaps {
  import opened Outcomes
  import opened Money
  import opened Sizing
  import opened Domain
  import opened Lists
  import opened Sums
  import opened Holdings
  import opened Snapshots
  import opened Risk
  import opened Rebalance
  import opened RebalanceSteps
  import opened RebalanceBudgets

  /** Every name held is a tradable stock of a known industry. */
  predicate Investable(positions: seq<Position>, instruments: map<int, Instrument>) {
    forall n :: 0 <= n < |positions| && positions[n].quantity > 0 ==>
      var id := positions[n].instrument;
      Classified(instruments, id) && instruments[id].isStock && instruments[id].tradable
  }

  predicate Unreserved(positions: seq<Position>, n: nat) {
    forall k :: 0 <= k < n && k < |positions| ==> positions[k].reservedQuantity == 0
  }

  /** The limits, met exactly or up to a slack in cents on the two totals. */
  ghost predicate Capped(input: PortfolioInput, prices: map<int, int>, instruments: map<int, Instrument>,
                         positions: seq<Position>, slack: int)
  {
    && (forall n :: 0 <= n < |positions| ==> ValueAt(prices, positions[n]) <= CapLimit(input, SingleCap))
    && (forall k :: k != UNKNOWN_INDUSTRY ==>
          Sum(positions, IndustryValue(prices, instruments, k)) <= CapLimit(input, IndustryCap) + slack)
    && Sum(positions, StockValue(prices)) <= CapLimit(input, StockCap) + slack
  }

  predicate PositivePrices(prices: map<int, int>) {
    forall id :: id in prices ==> prices[id] > 0
  }

  // ---------- Values ----------

  lemma ValueIsMonotone(prices: map<int, int>, p: Position, fewer: int)
    requires PositivePrices(prices) && 0 <= fewer <= p.quantity
    ensures 0 <= ValueAt(prices, p.(quantity := fewer)) <= ValueAt(prices, p)
  {
    if p.instrument in prices {
      MulMonotone(prices[p.instrument], 0, fewer);
      MulMonotone(prices[p.instrument], fewer, p.quantity);
    }
  }

  lemma NameValueOfRow(positions: seq<Position>, prices: map<int, int>, n: nat)
    requires Distinct(positions) && n < |positions|
    ensures Sum(positions, NameValue(prices, positions[n].instrument)) == ValueAt(prices, positions[n])
  {
    var f := NameValue(prices, positions[n].instrument);
    SumSplit(positions, n, f);
    SumIsZero(positions[..n], f);
    SumIsZero(positions[n + 1..], f);
  }

  // ---------- Risk reductions ----------

  /** No limit but the shares held bounds a sell that reduces risk. */
  lemma EmergencyLimit(input: PortfolioInput, d: Draft, n: nat, price: int, quantity: int, reason: Reason)
    requires n < |d.positions| && Rows(d.positions) && d.positions[n].reservedQuantity == 0
    requires Investable(d.positions, InstrumentsById(input.snapshot.instruments)) && EmergencySell(reason)
    requires 0 < quantity <= d.positions[n].quantity
    requires ValidateOrder(SellRequest(input, d, n, price, quantity, reason)).Ok?
    ensures ValidateOrder(SellRequest(input, d, n, price, quantity, reason)).value.maxQuantity >= quantity
  {
    var request := SellRequest(input, d, n, price, quantity, reason);
    hide Quotes;
    hide TurnoverAfter;
    hide InstrumentsById;
    hide FreeShares;
    hide MoneyLimit;
    hide MaxWholeQuantity;
    hide Distinct;
    FreeSharesOfRow(d.positions, n);
    OrderSizeIsOptimal(request);
  }

  /** A sell that reduces risk is carried out in full. */
  lemma EmergencySellIsFull(input: PortfolioInput, prices: map<int, int>, instruments: map<int, Instrument>, d: Draft,
                            n: nat, quantity: int, reason: Reason)
    requires instruments == InstrumentsById(input.snapshot.instruments)
    requires n < |d.positions| && Rows(d.positions) && d.positions[n].reservedQuantity == 0
    requires Investable(d.positions, instruments) && EmergencySell(reason)
    requires 0 < quantity <= d.positions[n].quantity
    requires AppendSell(input, prices, d, n, quantity, reason).Ok?
    ensures AppendSell(input, prices, d, n, quantity, reason).value.positions
         == d.positions[n := d.positions[n].(quantity := d.positions[n].quantity - quantity)]
  {
    hide ValidateOrder;
    hide AppendSell;
    hide Distinct;
    var size := AppendSellEffect(input, prices, d, n, quantity, reason);
    EmergencyLimit(input, d, n, At(prices, d.positions[n].instrument), quantity, reason);
    hide Rows;
    hide Investable;
    hide WithinTurnover;
    hide RoundedGross;
  }

  lemma ReduceStepEffect(input: PortfolioInput, prices: map<int, int>, instruments: map<int, Instrument>, d: Draft,
                         n: nat, cap: Cap)
    returns (kept: int)
    requires instruments == InstrumentsById(input.snapshot.instruments)
    requires n < |d.positions| && Rows(d.positions) && Unreserved(d.positions, |d.positions|)
    requires Investable(d.positions, instruments) && PositivePrices(prices)
    requires ReduceStep(input, prices, instruments, d, n, cap).Ok?
    ensures var p, e := d.positions[n], ReduceStep(input, prices, instruments, d, n, cap).value;
      && 0 <= kept <= p.quantity
      && e.positions == d.positions[n := p.(quantity := kept)]
      && (p.quantity > 0 ==>
            && PortfolioExposure(d.positions, [], prices, instruments, None).Ok?
            && var x := PortfolioExposure(d.positions, [], prices, instruments, None).value;
              var excess := CapExposure(x, instruments, p.instrument, cap) - CapLimit(input, cap);
              && (excess <= 0 ==> kept == p.quantity)
              && (excess > 0 ==>
                    ValueAt(prices, p.(quantity := kept)) <= NotBelowZero(At(x.byId, p.instrument) - excess)))
  {
    hide ValidateOrder;
    hide MoneyLimit;
    hide HoldingsExposure;
    hide MaxWholeQuantity;
    var p := d.positions[n];
    kept := p.quantity;
    assert d.positions[n := p] == d.positions;
    if p.quantity > 0 {
      var x := PortfolioExposure(d.positions, [], prices, instruments, None).value;
      var excess := CapExposure(x, instruments, p.instrument, cap) - CapLimit(input, cap);
      if excess > 0 {
        kept := KeptQuantity(At(prices, p.instrument), p.quantity, At(x.byId, p.instrument), excess);
        SizingIsOptimal(p.quantity,
                        GrossWithin(At(prices, p.instrument), NotBelowZero(At(x.byId, p.instrument) - excess)));
        if kept < p.quantity {
          EmergencySellIsFull(input, prices, instruments, d, n, p.quantity - kept, CapReason(cap));
        }
      }
    }
  }

  /** A total is within its limit unless everything counted so far has been brought down to nothing. */
  predicate Bounded(positions: seq<Position>, n: nat, f: Position -> int, limit: int) {
    Sum(positions, f) <= limit || forall k :: 0 <= k < n && k < |positions| ==> f(positions[k]) == 0
  }

  lemma BoundedStep(positions: seq<Position>, n: nat, p: Position, f: Position -> int, limit: int)
    requires n < |positions| && Bounded(positions, n, f, limit)
    requires 0 <= f(p) <= f(positions[n])
    requires f(p) == 0 || Sum(positions, f) - f(positions[n]) + f(p) <= limit
    ensures Bounded(positions[n := p], n + 1, f, limit)
    ensures Sum(positions[n := p], f) <= Sum(positions, f)
  {
    SumUpdate(positions, n, p, f);
  }

  lemma BoundedTotal(positions: seq<Position>, f: Position -> int, limit: int)
    requires Bounded(positions, |positions|, f, limit) && limit >= 0
    ensures Sum(positions, f) <= limit
  {
    if Sum(positions, f) > limit {
      SumIsZero(positions, f);
    }
  }

  /** What holds after the first `n` rows of a reduction pass; the passes run in the order of the caps. */
  ghost predicate Reduced(input: PortfolioInput, prices: map<int, int>, instruments: map<int, Instrument>,
                          positions: seq<Position>, n: nat, cap: Cap)
  {
    && Rows(positions) && Unreserved(positions, |positions|) && Investable(positions, instruments)
    && (forall k :: 0 <= k < |positions| && (cap != SingleCap || k < n) ==>
          ValueAt(prices, positions[k]) <= CapLimit(input, SingleCap))
    && (cap == IndustryCap ==> forall k :: k != UNKNOWN_INDUSTRY ==>
          Bounded(positions, n, IndustryValue(prices, instruments, k), CapLimit(input, IndustryCap)))
    && (cap == StockCap ==> forall k :: k != UNKNOWN_INDUSTRY ==>
          Sum(positions, IndustryValue(prices, instruments, k)) <= CapLimit(input, IndustryCap))
    && (cap == StockCap ==> Bounded(positions, n, StockValue(prices), CapLimit(input, StockCap)))
  }

  /** Shrinking a row keeps the rows well formed and every name that was within the single limit within it. */
  lemma ReduceRowShape(input: PortfolioInput, prices: map<int, int>, instruments: map<int, Instrument>,
                       positions: seq<Position>, n: nat, cap: Cap, p: Position)
    requires PositivePrices(prices) && n < |positions| && Reduced(input, prices, instruments, positions, n, cap)
    requires p == positions[n].(quantity := p.quantity) && 0 <= p.quantity <= positions[n].quantity
    requires cap == SingleCap ==> ValueAt(prices, p) <= CapLimit(input, SingleCap)
    ensures var after := positions[n := p];
      && Rows(after) && Unreserved(after, |after|) && Investable(after, instruments)
      && (forall k :: 0 <= k < |after| && (cap != SingleCap || k < n + 1) ==>
            ValueAt(prices, after[k]) <= CapLimit(input, SingleCap))
  {
    ValueIsMonotone(prices, positions[n], p.quantity);
    hide CapLimit;
    hide ValueAt;
    hide Sum;
    hide Bounded;
  }

  lemma ReduceRowIndustry(input: PortfolioInput, prices: map<int, int>, instruments: map<int, Instrument>,
                          positions: seq<Position>, n: nat, cap: Cap, p: Position, k: int)
    requires PositivePrices(prices) && n < |positions| && Reduced(input, prices, instruments, positions, n, cap)
    requires p == positions[n].(quantity := p.quantity) && 0 <= p.quantity <= positions[n].quantity
    requires k != UNKNOWN_INDUSTRY
    requires cap == IndustryCap && positions[n].quantity > 0 ==>
      ValueAt(prices, p) == 0
      || Sum(positions, IndustryValue(prices, instruments, IndustryOf(instruments, p.instrument)))
         - ValueAt(prices, positions[n]) + ValueAt(prices, p) <= CapLimit(input, IndustryCap)
    ensures cap == IndustryCap ==>
      Bounded(positions[n := p], n + 1, IndustryValue(prices, instruments, k), CapLimit(input, IndustryCap))
    ensures cap == StockCap ==>
      Sum(positions[n := p], IndustryValue(prices, instruments, k)) <= CapLimit(input, IndustryCap)
  {
    hide CapLimit;
    hide RoundedGross;
    hide Rows;
    hide Investable;
    hide Unreserved;
    ValueIsMonotone(prices, positions[n], p.quantity);
    var f := IndustryValue(prices, instruments, k);
    SumUpdate(positions, n, p, f);
    hide Sum;
    if cap == IndustryCap {
      assert Bounded(positions, n, f, CapLimit(input, IndustryCap));
      NothingToReduce(prices, instruments, positions, n, p, k);
      BoundedStep(positions, n, p, f, CapLimit(input, IndustryCap));
    }
  }

  lemma NothingToReduce(prices: map<int, int>, instruments: map<int, Instrument>, positions: seq<Position>, n: nat,
                        p: Position, k: int)
    requires n < |positions| && p == positions[n].(quantity := p.quantity) && 0 <= p.quantity <= positions[n].quantity
    ensures positions[n].quantity == 0 ==> IndustryValue(prices, instruments, k)(p) == 0
    ensures ValueAt(prices, p) == 0 ==> IndustryValue(prices, instruments, k)(p) == 0
    ensures IndustryOf(instruments, p.instrument) != k && k != UNKNOWN_INDUSTRY ==>
      IndustryValue(prices, instruments, k)(p) == 0
  {
  }

  lemma ReduceRow(input: PortfolioInput, prices: map<int, int>, instruments: map<int, Instrument>,
                  positions: seq<Position>, n: nat, cap: Cap, p: Position)
    requires PositivePrices(prices)
    requires n < |positions| && Reduced(input, prices, instruments, positions, n, cap)
    requires p == positions[n].(quantity := p.quantity) && 0 <= p.quantity <= positions[n].quantity
    requires cap == SingleCap ==> ValueAt(prices, p) <= CapLimit(input, SingleCap)
    requires cap == IndustryCap && positions[n].quantity > 0 ==>
      ValueAt(prices, p) == 0
      || Sum(positions, IndustryValue(prices, instruments, IndustryOf(instruments, p.instrument)))
         - ValueAt(prices, positions[n]) + ValueAt(prices, p) <= CapLimit(input, IndustryCap)
    requires cap == StockCap ==>
      ValueAt(prices, p) == 0
      || Sum(positions, StockValue(prices)) - ValueAt(prices, positions[n]) + ValueAt(prices, p)
         <= CapLimit(input, StockCap)
    ensures Reduced(input, prices, instruments, positions[n := p], n + 1, cap)
  {
    hide CapLimit;
    hide RoundedGross;
    ReduceRowShape(input, prices, instruments, positions, n, cap, p);
    hide Rows;
    hide Investable;
    hide Unreserved;
    forall k | k != UNKNOWN_INDUSTRY
      ensures cap == IndustryCap ==>
        Bounded(positions[n := p], n + 1, IndustryValue(prices, instruments, k), CapLimit(input, IndustryCap))
      ensures cap == StockCap ==>
        Sum(positions[n := p], IndustryValue(prices, instruments, k)) <= CapLimit(input, IndustryCap)
    {
      ReduceRowIndustry(input, prices, instruments, positions, n, cap, p, k);
    }
    hide Bounded;
    hide Sum;
    if cap == StockCap {
      ValueIsMonotone(prices, positions[n], p.quantity);
      hide ValueAt;
      BoundedStep(positions, n, p, StockValue(prices), CapLimit(input, StockCap));
    }
  }

  /** A row cut down to what a cap leaves it brings the cap's total within the limit, or is worth nothing. */
  lemma KeptValueMeetsCap(input: PortfolioInput, prices: map<int, int>, instruments: map<int, Instrument>,
                          positions: seq<Position>, n: nat, cap: Cap, p: Position)
    requires n < |positions| && Rows(positions) && positions[n].quantity > 0
    requires p == positions[n].(quantity := p.quantity)
    requires Classified(instruments, p.instrument)
    requires HoldingsExposure(positions, prices, instruments).Ok?
    requires var x := HoldingsExposure(positions, prices, instruments).value;
      var excess := CapExposure(x, instruments, p.instrument, cap) - CapLimit(input, cap);
      && (excess <= 0 ==> p == positions[n])
      && (excess > 0 ==> 0 <= ValueAt(prices, p) <= NotBelowZero(At(x.byId, p.instrument) - excess))
    ensures cap == SingleCap ==> ValueAt(prices, p) <= NotBelowZero(CapLimit(input, SingleCap))
    ensures cap == IndustryCap ==>
      ValueAt(prices, p) == 0
      || Sum(positions, IndustryValue(prices, instruments, IndustryOf(instruments, p.instrument)))
         - ValueAt(prices, positions[n]) + ValueAt(prices, p) <= CapLimit(input, IndustryCap)
    ensures cap == StockCap ==>
      ValueAt(prices, p) == 0
      || Sum(positions, StockValue(prices)) - ValueAt(prices, positions[n]) + ValueAt(prices, p)
         <= CapLimit(input, StockCap)
  {
    ExposureIsValue(positions, prices, instruments);
    NameValueOfRow(positions, prices, n);
    hide MoneyLimit;
    hide ValueAt;
    hide HoldingsExposure;
  }

  lemma ReduceStepKeeps(input: PortfolioInput, prices: map<int, int>, instruments: map<int, Instrument>, d: Draft,
                        n: nat, cap: Cap)
    requires instruments == InstrumentsById(input.snapshot.instruments)
    requires PositivePrices(prices) && input.nav > 0 && input.policy.Valid()
    requires n < |d.positions| && Reduced(input, prices, instruments, d.positions, n, cap)
    requires ReduceStep(input, prices, instruments, d, n, cap).Ok?
    ensures Reduced(input, prices, instruments, ReduceStep(input, prices, instruments, d, n, cap).value.positions,
                    n + 1, cap)
  {
    hide ReduceStep;
    hide MoneyLimit;
    hide HoldingsExposure;
    hide RoundedGross;
    hide InstrumentsById;
    var p := d.positions[n];
    assert Rows(d.positions) && Investable(d.positions, instruments);
    var kept := ReduceStepEffect(input, prices, instruments, d, n, cap);
    LimitIsNonNegative(input.nav, input.policy.singleWeight);
    var q := p.(quantity := kept);
    ValueIsMonotone(prices, p, kept);
    hide Reduced;
    hide Distinct;
    if p.quantity > 0 {
      KeptValueMeetsCap(input, prices, instruments, d.positions, n, cap, q);
    }
    ReduceRow(input, prices, instruments, d.positions, n, cap, q);
  }

  lemma {:induction false} ReducePassKeeps(input: PortfolioInput, prices: map<int, int>,
                                           instruments: map<int, Instrument>, d: Draft, n: nat, cap: Cap)
    requires instruments == InstrumentsById(input.snapshot.instruments)
    requires PositivePrices(prices) && input.nav > 0 && input.policy.Valid()
    requires n <= |d.positions| && Reduced(input, prices, instruments, d.positions, 0, cap)
    requires ReducePass(input, prices, instruments, d, n, cap).Ok?
    ensures Reduced(input, prices, instruments, ReducePass(input, prices, instruments, d, n, cap).value.positions, n,
                    cap)
  {
    hide ReduceStep;
    hide Reduced;
    if n > 0 {
      ReducePassKeeps(input, prices, instruments, d, n - 1, cap);
      ReduceStepKeeps(input, prices, instruments, ReducePass(input, prices, instruments, d, n - 1, cap).value, n - 1,
                      cap);
    }
  }

  // ---------- Stop losses and exits ----------

  lemma AppendSellKeepsRows(input: PortfolioInput, prices: map<int, int>, instruments: map<int, Instrument>, d: Draft,
                            n: nat, quantity: int, reason: Reason, m: nat)
    requires n < |d.positions| && Rows(d.positions) && Investable(d.positions, instruments)
    requires Unreserved(d.positions, m)
    requires AppendSell(input, prices, d, n, quantity, reason).Ok?
    ensures var e := AppendSell(input, prices, d, n, quantity, reason).value;
      Rows(e.positions) && Investable(e.positions, instruments) && Unreserved(e.positions, m)
  {
    var size := AppendSellEffect(input, prices, d, n, quantity, reason);
    hide AppendSell;
    hide RoundedGross;
    hide MoneyLimit;
  }

  lemma {:induction false} ExitPassKeepsRows(input: PortfolioInput, prices: map<int, int>,
                                             instruments: map<int, Instrument>,
                                             signals: map<int, Signal>, d: Draft, n: nat, stop: bool)
    requires n <= |d.positions| && Rows(d.positions) && Investable(d.positions, instruments)
    requires ExitPass(input, prices, signals, d, n, stop).Ok?
    ensures var e := ExitPass(input, prices, signals, d, n, stop).value;
      Rows(e.positions) && Investable(e.positions, instruments) && Unreserved(e.positions, n)
  {
    hide AppendSell;
    hide RoundedGross;
    if n > 0 {
      ExitPassKeepsRows(input, prices, instruments, signals, d, n - 1, stop);
      var before := ExitPass(input, prices, signals, d, n - 1, stop).value;
      var p := before.positions[n - 1];
      if p.quantity > 0 {
        assert Unreserved(before.positions, n);
        if AppendSell(input, prices, before, n - 1, p.quantity, StopLoss).Ok? {
          AppendSellKeepsRows(input, prices, instruments, before, n - 1, p.quantity, StopLoss, n);
        }
        if AppendSell(input, prices, before, n - 1, p.quantity, ExitSignal).Ok? {
          AppendSellKeepsRows(input, prices, instruments, before, n - 1, p.quantity, ExitSignal, n);
        }
      }
    }
  }

  lemma ExitsKeepRows(input: PortfolioInput, prices: map<int, int>, instruments: map<int, Instrument>)
    requires Rows(input.positions) && Investable(input.positions, instruments)
    requires AfterExits(input, prices).Ok?
    ensures var e := AfterExits(input, prices).value;
      Rows(e.positions) && Investable(e.positions, instruments) && Unreserved(e.positions, |e.positions|)
  {
    var start := StartDraft(input);
    SortKeepsRows(input.positions);
    forall n | 0 <= n < |start.positions|
      ensures start.positions[n] in input.positions
    {
      SortKeepsElements(input.positions, ByInstrument(), start.positions[n]);
    }
    var signals := SignalsById(Sort(input.evaluation.signals, ByScore()));
    ExitPassKeepsRows(input, prices, instruments, signals, start, |start.positions|, true);
    var stopped := ExitPass(input, prices, signals, start, |start.positions|, true).value;
    ExitPassKeepsRows(input, prices, instruments, signals, stopped, |stopped.positions|, false);
  }

  lemma ReadyForIndustry(input: PortfolioInput, prices: map<int, int>, instruments: map<int, Instrument>,
                         positions: seq<Position>)
    requires Reduced(input, prices, instruments, positions, |positions|, SingleCap)
    ensures Reduced(input, prices, instruments, positions, 0, IndustryCap)
  {
    hide ValueAt;
    hide MoneyLimit;
  }

  lemma ReadyForStocks(input: PortfolioInput, prices: map<int, int>, instruments: map<int, Instrument>,
                       positions: seq<Position>)
    requires input.nav > 0 && input.policy.Valid()
    requires Reduced(input, prices, instruments, positions, |positions|, IndustryCap)
    ensures Reduced(input, prices, instruments, positions, 0, StockCap)
  {
    LimitIsNonNegative(input.nav, input.policy.industryWeight);
    hide ValueAt;
    hide MoneyLimit;
    forall k | k != UNKNOWN_INDUSTRY
      ensures Sum(positions, IndustryValue(prices, instruments, k)) <= CapLimit(input, IndustryCap)
    {
      BoundedTotal(positions, IndustryValue(prices, instruments, k), CapLimit(input, IndustryCap));
    }
    hide Sum;
  }

  lemma ReducedIsCapped(input: PortfolioInput, prices: map<int, int>, instruments: map<int, Instrument>,
                        positions: seq<Position>)
    requires input.nav > 0 && input.policy.Valid()
    requires Reduced(input, prices, instruments, positions, |positions|, StockCap)
    ensures Rows(positions) && Capped(input, prices, instruments, positions, 0)
  {
    LimitIsNonNegative(input.nav, input.policy.stockWeight);
    hide ValueAt;
    hide MoneyLimit;
    BoundedTotal(positions, StockValue(prices), CapLimit(input, StockCap));
    hide Sum;
  }

  /** After the reductions every limit is met exactly. */
  lemma ReductionsMeetCaps(input: PortfolioInput, prices: map<int, int>, instruments: map<int, Instrument>)
    requires instruments == InstrumentsById(input.snapshot.instruments)
    requires Rows(input.positions) && Investable(input.positions, instruments)
    requires PositivePrices(prices) && input.nav > 0 && input.policy.Valid()
    requires AfterReductions(input, prices, instruments).Ok?
    ensures var e := AfterReductions(input, prices, instruments).value;
      Rows(e.positions) && Capped(input, prices, instruments, e.positions, 0)
  {
    ExitsKeepRows(input, prices, instruments);
    var exits := AfterExits(input, prices).value;
    assert Reduced(input, prices, instruments, exits.positions, 0, SingleCap);
    hide Reduced;
    hide AfterExits;
    hide ReducePass;
    ReducePassKeeps(input, prices, instruments, exits, |exits.positions|, SingleCap);
    var single := ReducePass(input, prices, instruments, exits, |exits.positions|, SingleCap).value;
    ReadyForIndustry(input, prices, instruments, single.positions);
    ReducePassKeeps(input, prices, instruments, single, |single.positions|, IndustryCap);
    var sector := ReducePass(input, prices, instruments, single, |single.positions|, IndustryCap).value;
    ReadyForStocks(input, prices, instruments, sector.positions);
    ReducePassKeeps(input, prices, instruments, sector, |sector.positions|, StockCap);
    ReducedIsCapped(input, prices, instruments,
                    ReducePass(input, prices, instruments, sector, |sector.positions|, StockCap).value.positions);
  }

  // ---------- Buys ----------

  /** The row a buy changes, empty when the name is not held yet. */
  function BoughtRow(d: Draft, id: int): Position
    requires SoundHeld(d)
  {
    if id in d.held then d.positions[d.held[id]] else Position(id, 0, 0, 0)
  }

  /** What the value of a name grows by when it is topped up: the value of the top-up, and a cent when the rests
      carry. */
  lemma TopUpValue(prices: map<int, int>, p: Position, size: int)
    requires PositivePrices(prices) && p.instrument in prices && p.quantity >= 0 && size > 0
    ensures var gain := ValueAt(prices, p.(quantity := p.quantity + size)) - ValueAt(prices, p)
      - RoundedGross(prices[p.instrument], size);
      gain <= 1 && (gain == 1 <==> CarriesCent(prices[p.instrument], p.quantity, size))
  {
    GrossOfSumCarries(prices[p.instrument], p.quantity, size);
    NothingIsWorthless(prices[p.instrument]);
    hide RoundedGross;
    hide CarriesCent;
  }

  lemma NothingIsWorthless(price: int)
    ensures RoundedGross(price, 0) == 0
  {
  }

  lemma ProjectSum(d: Draft, id: int, size: int, f: Position -> int)
    requires SoundHeld(d) && (id !in d.held ==> f(Position(id, 0, 0, 0)) == 0)
    ensures var p := BoughtRow(d, id);
      Sum(Project(d, id, size).positions, f) == Sum(d.positions, f) - f(p) + f(p.(quantity := p.quantity + size))
  {
    if id in d.held {
      var p := d.positions[d.held[id]];
      SumUpdate(d.positions, d.held[id], p.(quantity := p.quantity + size), f);
    } else {
      SumAppend(d.positions, Position(id, size, 0, 0), f);
    }
  }

  /** A total that counts the name grows by the value of the top-up, and a cent when the rests carry; another total is
      unchanged. */
  lemma BuyAddsValue(prices: map<int, int>, d: Draft, id: int, size: int, f: Position -> int, counts: bool)
    requires PositivePrices(prices) && Rows(d.positions) && IndexedRows(d)
    requires id in prices && size > 0
    requires forall p: Position :: p.instrument == id ==> f(p) == if counts then ValueAt(prices, p) else 0
    ensures var gain := Sum(Project(d, id, size).positions, f) - Sum(d.positions, f)
      - (if counts then RoundedGross(prices[id], size) else 0);
      if counts then gain <= 1 && (gain == 1 <==> CarriesCent(prices[id], CurrentQuantity(d, id), size)) else gain == 0
  {
    var p := BoughtRow(d, id);
    TopUpValue(prices, p, size);
    ProjectSum(d, id, size, f);
    hide Project;
    hide RoundedGross;
    hide CarriesCent;
    hide Sum;
  }

  lemma BuyKeepsCaps(input: PortfolioInput, prices: map<int, int>, instruments: map<int, Instrument>, d: Draft,
                     e: Draft, id: int, size: int)
    requires PositivePrices(prices) && Rows(d.positions) && IndexedRows(d)
    requires Capped(input, prices, instruments, d.positions, 1)
    requires BuyMade(input, prices, instruments, d, e, id, size)
    ensures Capped(input, prices, instruments, e.positions, 1)
  {
    hide MoneyLimit;
    hide RoundedGross;
    hide CarriesCent;
    hide HoldingsExposure;
    hide PurchaseCost;
    hide WithinTurnover;
    ExposureIsValue(d.positions, prices, instruments);
    BuyAddsValue(prices, d, id, size, StockValue(prices), true);
    forall k | k != UNKNOWN_INDUSTRY
      ensures Sum(e.positions, IndustryValue(prices, instruments, k)) <= CapLimit(input, IndustryCap) + 1
    {
      BuyAddsValue(prices, d, id, size, IndustryValue(prices, instruments, k), instruments[id].industry == k);
      assert Sum(d.positions, IndustryValue(prices, instruments, k)) <= CapLimit(input, IndustryCap) + 1;
    }
    hide Sum;
  }
}
