// When a plan sells one name more than once: each stage of a plan sells a name at most once, and when it does is known.
module RepeatedSells {
  import opened Outcomes
  import opened Money
  import opened Sizing
  import opened Domain
  import opened Lists
  import opened Sums
  import opened Snapshots
  import opened Risk
  import opened Rebalance
  import opened RebalanceSteps
  import opened RebalanceCaps
  import opened RebalanceRounding

  function SellsOf(id: int): PlannedOrder -> int {
    (p: PlannedOrder) => if p.side == Sell && p.instrument == id then 1 else 0
  }

  // ---------- One stage ----------

  predicate Shrunk(d: Draft, e: Draft, k: nat)
    requires k < |d.positions| && k < |e.positions|
  {
    e.positions[k].quantity < d.positions[k].quantity
  }

  /** Row by row: what is sold of a name is one order, and marks the name as sold. */
  ghost predicate CountedRow(d: Draft, e: Draft, k: nat)
    requires k < |d.positions| && k < |e.positions|
  {
    var p, q := d.positions[k], e.positions[k];
    && q == p.(quantity := q.quantity) && q.quantity <= p.quantity
    && Sum(e.orders, SellsOf(p.instrument)) == Sum(d.orders, SellsOf(p.instrument)) + (if Shrunk(d, e, k) then 1 else 0)
    && (Shrunk(d, e, k) ==> p.instrument in e.blocked)
    && (!Shrunk(d, e, k) ==> (p.instrument in e.blocked <==> p.instrument in d.blocked))
  }

  /** The first `n` rows are counted, and the others are as they were. */
  ghost predicate CountedTo(d: Draft, e: Draft, n: nat) {
    && |e.positions| == |d.positions| && Rows(e.positions)
    && (forall k :: 0 <= k < |d.positions| ==> CountedRow(d, e, k))
    && (forall k :: n <= k < |d.positions| ==> e.positions[k] == d.positions[k])
  }

  /** At most one order is added: a sell of the n-th row. */
  ghost predicate SellsRow(d: Draft, e: Draft, n: nat)
    requires n < |d.positions|
  {
    NoneSold(d, e) || exists size: int, reason :: SoldFrom(d, e, n, size, reason)
  }

  predicate NoneSold(d: Draft, e: Draft) {
    e.positions == d.positions && e.orders == d.orders && e.blocked == d.blocked
  }

  predicate SoldFrom(d: Draft, e: Draft, n: nat, size: int, reason: Reason)
    requires n < |d.positions|
  {
    var p := d.positions[n];
    && 0 < size <= p.quantity - p.reservedQuantity
    && e.positions == d.positions[n := p.(quantity := p.quantity - size)]
    && e.orders == d.orders + [PlannedOrder(p.instrument, Sell, reason, size)]
    && e.blocked == d.blocked + {p.instrument}
  }

  lemma AppendSellsRow(input: PortfolioInput, prices: map<int, int>, d: Draft, n: nat, quantity: int, reason: Reason)
    requires n < |d.positions| && Rows(d.positions) && AppendSell(input, prices, d, n, quantity, reason).Ok?
    ensures SellsRow(d, AppendSell(input, prices, d, n, quantity, reason).value, n)
  {
    var e := AppendSell(input, prices, d, n, quantity, reason).value;
    var size := AppendSellEffect(input, prices, d, n, quantity, reason);
    hide ValidateOrder;
    hide GrossValue;
    hide RoundedGross;
    hide WithinTurnover;
    hide MoneyLimit;
    hide Rows;
    if size > 0 {
      assert SoldFrom(d, e, n, size, reason);
    }
  }

  /** A step on the n-th row of a stage counts it and leaves the others. */
  lemma CountStep(d: Draft, before: Draft, e: Draft, n: nat)
    requires n < |d.positions| && CountedTo(d, before, n) && SellsRow(before, e, n)
    ensures CountedTo(d, e, n + 1)
  {
    if !NoneSold(before, e) {
      var size: int, reason :| SoldFrom(before, e, n, size, reason);
      var p, o := before.positions[n], PlannedOrder(before.positions[n].instrument, Sell, reason, size);
      forall k | 0 <= k < |d.positions|
        ensures CountedRow(d, e, k)
      {
        var id := d.positions[k].instrument;
        assert CountedRow(d, before, k) && CountedRow(d, before, n);
        assert before.positions[k].instrument == id;
        SumAppend(before.orders, o, SellsOf(id));
        hide Sum;
      }
    } else {
      forall k | 0 <= k < |d.positions|
        ensures CountedRow(d, e, k)
      {
        assert CountedRow(d, before, k);
      }
    }
  }

  lemma NothingCounted(d: Draft)
    requires Rows(d.positions)
    ensures CountedTo(d, d, 0)
  {
  }

  lemma {:induction false} ReducePassCounts(input: PortfolioInput, prices: map<int, int>,
                                            instruments: map<int, Instrument>, d: Draft, n: nat, cap: Cap)
    requires n <= |d.positions| && Rows(d.positions) && ReducePass(input, prices, instruments, d, n, cap).Ok?
    ensures CountedTo(d, ReducePass(input, prices, instruments, d, n, cap).value, n)
  {
    hide AppendSell;
    hide PortfolioExposure;
    hide KeptQuantity;
    hide CountedTo;
    hide SellsRow;
    if n == 0 {
      NothingCounted(d);
    } else {
      ReducePassCounts(input, prices, instruments, d, n - 1, cap);
      var before := ReducePass(input, prices, instruments, d, n - 1, cap).value;
      ReduceSellsRow(input, prices, instruments, before, n - 1, cap, d);
      CountStep(d, before, ReducePass(input, prices, instruments, d, n, cap).value, n - 1);
    }
  }

  lemma ReduceSellsRow(input: PortfolioInput, prices: map<int, int>, instruments: map<int, Instrument>, before: Draft,
                       n: nat, cap: Cap, d: Draft)
    requires CountedTo(d, before, n) && n < |d.positions| && ReduceStep(input, prices, instruments, before, n, cap).Ok?
    ensures SellsRow(before, ReduceStep(input, prices, instruments, before, n, cap).value, n)
  {
    hide AppendSell;
    hide PortfolioExposure;
    hide KeptQuantity;
    var p := before.positions[n];
    if p.quantity > 0 {
      var x := PortfolioExposure(before.positions, [], prices, instruments, None).value;
      var kept := KeptQuantity(At(prices, p.instrument), p.quantity, At(x.byId, p.instrument),
                               CapExposure(x, instruments, p.instrument, cap) - CapLimit(input, cap));
      if AppendSell(input, prices, before, n, p.quantity - kept, CapReason(cap)).Ok? {
        AppendSellsRow(input, prices, before, n, p.quantity - kept, CapReason(cap));
      }
    }
  }

  lemma ExitSellsRow(input: PortfolioInput, prices: map<int, int>, signals: map<int, Signal>, before: Draft, n: nat,
                     stop: bool, d: Draft)
    requires CountedTo(d, before, n) && n < |d.positions| && ExitStep(input, prices, signals, before, n, stop).Ok?
    ensures SellsRow(before, ExitStep(input, prices, signals, before, n, stop).value, n)
    ensures !stop && before.positions[n].instrument in before.blocked ==>
      ExitStep(input, prices, signals, before, n, stop) == Ok(before)
  {
    hide AppendSell;
    hide GrossValue;
    hide LossReached;
    var quantity := before.positions[n].quantity;
    if AppendSell(input, prices, before, n, quantity, StopLoss).Ok? {
      AppendSellsRow(input, prices, before, n, quantity, StopLoss);
    }
    if AppendSell(input, prices, before, n, quantity, ExitSignal).Ok? {
      AppendSellsRow(input, prices, before, n, quantity, ExitSignal);
    }
  }

  lemma {:induction false} ExitPassCounts(input: PortfolioInput, prices: map<int, int>, signals: map<int, Signal>,
                                          d: Draft, n: nat, stop: bool)
    requires n <= |d.positions| && Rows(d.positions) && ExitPass(input, prices, signals, d, n, stop).Ok?
    ensures CountedTo(d, ExitPass(input, prices, signals, d, n, stop).value, n)
    ensures !stop ==> forall k :: 0 <= k < n && d.positions[k].instrument in d.blocked ==>
      ExitPass(input, prices, signals, d, n, stop).value.positions[k] == d.positions[k]
  {
    hide ExitStep;
    hide SellsRow;
    if n == 0 {
      NothingCounted(d);
    } else {
      ExitPassCounts(input, prices, signals, d, n - 1, stop);
      var before := ExitPass(input, prices, signals, d, n - 1, stop).value;
      ExitSellsRow(input, prices, signals, before, n - 1, stop, d);
      var e := ExitPass(input, prices, signals, d, n, stop).value;
      CountStep(d, before, e, n - 1);
      assert before.positions[n - 1] == d.positions[n - 1];
      assert CountedRow(d, before, n - 1);
      OtherRowsStay(before, e, n - 1);
      hide CountedTo;
      hide CountedRow;
    }
  }

  lemma OtherRowsStay(d: Draft, e: Draft, n: nat)
    requires n < |d.positions| && SellsRow(d, e, n)
    ensures |e.positions| == |d.positions|
    ensures forall k :: 0 <= k < |d.positions| && k != n ==> e.positions[k] == d.positions[k]
  {
  }

  // ---------- The stages of a plan ----------

  function Turn(cap: Cap): nat {
    match cap
    case SingleCap => 0
    case IndustryCap => 1
    case StockCap => 2
  }

  /** The draft a reduction pass starts from. */
  function StageBefore(input: PortfolioInput, prices: map<int, int>, instruments: map<int, Instrument>,
                       cap: Cap): Result<Draft>
    decreases Turn(cap), 0
  {
    match cap
    case SingleCap => AfterExits(input, prices)
    case IndustryCap => StageAfter(input, prices, instruments, SingleCap)
    case StockCap => StageAfter(input, prices, instruments, IndustryCap)
  }

  function StageAfter(input: PortfolioInput, prices: map<int, int>, instruments: map<int, Instrument>,
                      cap: Cap): Result<Draft>
    decreases Turn(cap), 1
  {
    var d :- StageBefore(input, prices, instruments, cap);
    ReducePass(input, prices, instruments, d, |d.positions|, cap)
  }

  lemma LastStage(input: PortfolioInput, prices: map<int, int>, instruments: map<int, Instrument>)
    ensures AfterReductions(input, prices, instruments) == StageAfter(input, prices, instruments, StockCap)
  {
    hide ReducePass;
    hide AfterExits;
    assert StageBefore(input, prices, instruments, SingleCap) == AfterExits(input, prices);
    var single, sector := StageAfter(input, prices, instruments, SingleCap),
                          StageAfter(input, prices, instruments, IndustryCap);
    assert StageBefore(input, prices, instruments, IndustryCap) == single;
    assert StageBefore(input, prices, instruments, StockCap) == sector;
  }

  /** Stop losses and exits together sell a name once at most: what a stop loss sells is not sold again on its score. */
  lemma ExitsCount(input: PortfolioInput, prices: map<int, int>)
    requires Rows(input.positions) && AfterExits(input, prices).Ok?
    ensures var start, exits := StartDraft(input), AfterExits(input, prices).value;
      Rows(start.positions) && CountedTo(start, exits, |start.positions|)
  {
    hide ExitPass;
    var start, signals := StartDraft(input), SignalsById(Sort(input.evaluation.signals, ByScore()));
    SortKeepsRows(input.positions);
    ExitPassCounts(input, prices, signals, start, |start.positions|, true);
    var stopped := ExitPass(input, prices, signals, start, |start.positions|, true).value;
    ExitPassCounts(input, prices, signals, stopped, |stopped.positions|, false);
    var exits := AfterExits(input, prices).value;
    hide AfterExits;
    hide SortPositions;
    forall k | 0 <= k < |start.positions|
      ensures CountedRow(start, exits, k)
    {
      assert CountedRow(start, stopped, k) && CountedRow(stopped, exits, k);
      hide Sum;
    }
  }

  lemma StageCounts(input: PortfolioInput, prices: map<int, int>, instruments: map<int, Instrument>, cap: Cap)
    requires Rows(input.positions) && StageAfter(input, prices, instruments, cap).Ok?
    ensures var before, after := StageBefore(input, prices, instruments, cap),
      StageAfter(input, prices, instruments, cap);
      && before.Ok? && Rows(before.value.positions) && CountedTo(before.value, after.value, |before.value.positions|)
      && |before.value.positions| == |input.positions|
    decreases Turn(cap)
  {
    hide ReducePass;
    hide AfterExits;
    hide CountedRow;
    var before := StageBefore(input, prices, instruments, cap).value;
    match cap {
      case SingleCap => ExitsCount(input, prices); SortPermutes(input.positions, ByInstrument());
        assert |multiset(SortPositions(input.positions))| == |multiset(input.positions)|;
      case IndustryCap => StageCounts(input, prices, instruments, SingleCap);
      case StockCap => StageCounts(input, prices, instruments, IndustryCap);
    }
    ReducePassCounts(input, prices, instruments, before, |before.positions|, cap);
  }

  // ---------- When a stage sells ----------

  /** The draft a reduction pass has when it comes to the n-th row. */
  function AtTurn(input: PortfolioInput, prices: map<int, int>, instruments: map<int, Instrument>, n: nat,
                  cap: Cap): Result<Draft> {
    var d :- StageBefore(input, prices, instruments, cap);
    if n > |d.positions| then Err(InvalidInput) else ReducePass(input, prices, instruments, d, n, cap)
  }

  /** Later steps of a pass leave the rows before them alone. */
  lemma {:induction false} LaterSteps(input: PortfolioInput, prices: map<int, int>, instruments: map<int, Instrument>,
                                      d: Draft, m: nat, n: nat, cap: Cap)
    requires m <= n <= |d.positions| && Rows(d.positions) && ReducePass(input, prices, instruments, d, n, cap).Ok?
    ensures ReducePass(input, prices, instruments, d, m, cap).Ok?
    ensures var early, late := ReducePass(input, prices, instruments, d, m, cap).value,
      ReducePass(input, prices, instruments, d, n, cap).value;
      |early.positions| == |late.positions| == |d.positions| && forall k :: 0 <= k < m ==>
        late.positions[k] == early.positions[k]
  {
    hide ReduceStep;
    hide SellsRow;
    hide CountedRow;
    ReducePassCounts(input, prices, instruments, d, n, cap);
    if m < n {
      LaterSteps(input, prices, instruments, d, m, n - 1, cap);
      var before := ReducePass(input, prices, instruments, d, n - 1, cap).value;
      ReducePassCounts(input, prices, instruments, d, n - 1, cap);
      ReduceSellsRow(input, prices, instruments, before, n - 1, cap, d);
      OtherRowsStay(before, ReducePass(input, prices, instruments, d, n, cap).value, n - 1);
    }
  }

  /** The passes keep what the reductions need, stage after stage. */
  lemma StageReduced(input: PortfolioInput, prices: map<int, int>, instruments: map<int, Instrument>, cap: Cap)
    requires instruments == InstrumentsById(input.snapshot.instruments)
    requires Rows(input.positions) && Investable(input.positions, instruments)
    requires PositivePrices(prices) && input.nav > 0 && input.policy.Valid()
    requires StageBefore(input, prices, instruments, cap).Ok?
    ensures Reduced(input, prices, instruments, StageBefore(input, prices, instruments, cap).value.positions, 0, cap)
    decreases Turn(cap)
  {
    hide AfterExits;
    hide ReducePass;
    hide InstrumentsById;
    hide CapLimit;
    hide ValueAt;
    hide RiskPolicy.Valid;
    match cap {
      case SingleCap =>
        ExitsKeepRows(input, prices, instruments);
      case IndustryCap =>
        StageReduced(input, prices, instruments, SingleCap);
        var before := StageBefore(input, prices, instruments, SingleCap).value;
        hide Reduced;
        ReducePassKeeps(input, prices, instruments, before, |before.positions|, SingleCap);
        ReadyForIndustry(input, prices, instruments, StageBefore(input, prices, instruments, cap).value.positions);
      case StockCap =>
        StageReduced(input, prices, instruments, IndustryCap);
        var before := StageBefore(input, prices, instruments, IndustryCap).value;
        hide Reduced;
        ReducePassKeeps(input, prices, instruments, before, |before.positions|, IndustryCap);
        ReadyForStocks(input, prices, instruments, StageBefore(input, prices, instruments, cap).value.positions);
    }
  }

  /** A row that is worth nothing is left alone, whatever its cap. */
  lemma WorthlessIsKept(input: PortfolioInput, prices: map<int, int>, instruments: map<int, Instrument>, d: Draft,
                        n: nat, cap: Cap)
    requires n < |d.positions| && Rows(d.positions) && ValueAt(prices, d.positions[n]) == 0
    requires d.positions[n].quantity > 0
    requires ReduceStep(input, prices, instruments, d, n, cap).Ok?
    ensures ReduceStep(input, prices, instruments, d, n, cap) == Ok(d)
  {
    var p := d.positions[n];
    var x := PortfolioExposure(d.positions, [], prices, instruments, None).value;
    ExposureIsValue(d.positions, prices, instruments);
    NameValueOfRow(d.positions, prices, n);
    assert At(x.byId, p.instrument) == 0 && GrossValue(At(prices, p.instrument), p.quantity) == Ok(0);
    hide HoldingsExposure;
    hide CapLimit;
    hide CapExposure;
    var test := GrossWithin(At(prices, p.instrument), 0);
    assert Fits(test, p.quantity);
    SizingIsOptimal(p.quantity, test);
    hide MaxWholeQuantity;
    hide GrossValue;
    hide ValueAt;
  }

  /** At its turn the row is worth something and its cap is exceeded. */
  predicate Exceeds(input: PortfolioInput, prices: map<int, int>, instruments: map<int, Instrument>, d: Draft, n: nat,
                    cap: Cap)
    requires n < |d.positions|
  {
    var p, x := d.positions[n], PortfolioExposure(d.positions, [], prices, instruments, None);
    && p.quantity > 0 && ValueAt(prices, p) > 0
    && x.Ok? && CapExposure(x.value, instruments, p.instrument, cap) > CapLimit(input, cap)
  }

  /** A step sells some of its row exactly when the row is worth something and its cap is exceeded. */
  lemma ReduceStepSells(input: PortfolioInput, prices: map<int, int>, instruments: map<int, Instrument>, d: Draft,
                        n: nat, cap: Cap)
    requires instruments == InstrumentsById(input.snapshot.instruments)
    requires n < |d.positions| && Rows(d.positions) && Unreserved(d.positions, |d.positions|)
    requires Investable(d.positions, instruments) && PositivePrices(prices)
    requires ReduceStep(input, prices, instruments, d, n, cap).Ok?
    ensures var e := ReduceStep(input, prices, instruments, d, n, cap).value;
      |e.positions| == |d.positions| && (Shrunk(d, e, n) <==> Exceeds(input, prices, instruments, d, n, cap))
  {
    var p := d.positions[n];
    var kept := ReduceStepEffect(input, prices, instruments, d, n, cap);
    if p.quantity > 0 {
      var x := PortfolioExposure(d.positions, [], prices, instruments, None).value;
      assert At(x.byId, p.instrument) == ValueAt(prices, p) by {
        ExposureIsValue(d.positions, prices, instruments);
        NameValueOfRow(d.positions, prices, n);
      }
      ValueIsMonotone(prices, p, 0);
      if ValueAt(prices, p) == 0 {
        WorthlessIsKept(input, prices, instruments, d, n, cap);
      }
    }
    hide ReduceStep;
    hide PortfolioExposure;
    hide CapExposure;
    hide CapLimit;
    hide ValueAt;
    hide Rows;
    hide Investable;
    hide InstrumentsById;
  }

  /** The cap is exceeded when its pass comes to the n-th row. */
  predicate CutAt(input: PortfolioInput, prices: map<int, int>, instruments: map<int, Instrument>, n: nat, cap: Cap) {
    var d := AtTurn(input, prices, instruments, n, cap);
    d.Ok? && n < |d.value.positions| && Exceeds(input, prices, instruments, d.value, n, cap)
  }

  /** A reduction pass sells some of a name exactly when the cap is exceeded at its turn. */
  lemma StageSells(input: PortfolioInput, prices: map<int, int>, instruments: map<int, Instrument>, n: nat, cap: Cap)
    requires instruments == InstrumentsById(input.snapshot.instruments)
    requires Rows(input.positions) && Investable(input.positions, instruments)
    requires PositivePrices(prices) && input.nav > 0 && input.policy.Valid()
    requires StageAfter(input, prices, instruments, cap).Ok? && n < |input.positions|
    ensures var before, after := StageBefore(input, prices, instruments, cap),
      StageAfter(input, prices, instruments, cap);
      && before.Ok? && n < |before.value.positions| == |after.value.positions|
      && (Shrunk(before.value, after.value, n) <==> CutAt(input, prices, instruments, n, cap))
  {
    hide StageBefore;
    hide ReduceStep;
    hide InstrumentsById;
    hide RiskPolicy.Valid;
    hide Exceeds;
    hide CountedRow;
    StageCounts(input, prices, instruments, cap);
    StageReduced(input, prices, instruments, cap);
    var d := StageBefore(input, prices, instruments, cap).value;
    LaterSteps(input, prices, instruments, d, n, |d.positions|, cap);
    LaterSteps(input, prices, instruments, d, n + 1, |d.positions|, cap);
    ReducePassKeeps(input, prices, instruments, d, n, cap);
    ReducePassCounts(input, prices, instruments, d, n, cap);
    var turn := ReducePass(input, prices, instruments, d, n, cap).value;
    assert Rows(turn.positions) && Unreserved(turn.positions, |turn.positions|)
           && Investable(turn.positions, instruments);
    assert turn.positions[n] == d.positions[n];
    hide Reduced;
    hide Rows;
    ReduceStepSells(input, prices, instruments, turn, n, cap);
  }

  // ---------- The whole plan ----------

  lemma BuyStepSellsNothing(input: PortfolioInput, prices: map<int, int>, d: Draft, s: Signal, id: int)
    requires SoundHeld(d) && BuyStep(input, prices, d, s).Ok?
    ensures Sum(BuyStep(input, prices, d, s).value.orders, SellsOf(id)) == Sum(d.orders, SellsOf(id))
  {
    hide BuySize;
    hide GrossValue;
    hide PurchaseCost;
    hide Project;
    var e := BuyStep(input, prices, d, s).value;
    if |e.orders| > |d.orders| {
      SumAppend(d.orders, e.orders[|d.orders|], SellsOf(id));
      assert e.orders == d.orders + [e.orders[|d.orders|]];
    }
  }

  lemma {:induction false} BuyPassSellsNothing(input: PortfolioInput, prices: map<int, int>, d: Draft,
                                               ranked: seq<Signal>, n: nat, id: int)
    requires n <= |ranked| && SoundHeld(d) && BuyPass(input, prices, d, ranked, n).Ok?
    ensures Sum(BuyPass(input, prices, d, ranked, n).value.orders, SellsOf(id)) == Sum(d.orders, SellsOf(id))
  {
    hide BuyStep;
    hide Sum;
    if n > 0 {
      BuyPassSellsNothing(input, prices, d, ranked, n - 1, id);
      BuyStepSellsNothing(input, prices, BuyPass(input, prices, d, ranked, n - 1).value, ranked[n - 1], id);
    }
  }

  function Count(sold: bool): int {
    if sold then 1 else 0
  }

  /** Stop losses and exits leave less of the n-th name than was held. */
  predicate ExitAt(input: PortfolioInput, prices: map<int, int>, n: nat) {
    var start, exits := StartDraft(input), AfterExits(input, prices);
    exits.Ok? && n < |start.positions| && n < |exits.value.positions| && Shrunk(start, exits.value, n)
  }

  /** The sells of a name in a plan: one for the exits if they sell it, and one for each cap exceeded at its turn. */
  lemma SellsOfPlan(input: PortfolioInput, n: nat)
    requires Plans(input) && n < |input.positions|
    ensures var prices, instruments, id := QuotesOf(input), InstrumentsById(input.snapshot.instruments),
      SortPositions(input.positions);
      && n < |id|
      && Sum(BuildRebalance(input).value.orders, SellsOf(id[n].instrument))
         == Count(ExitAt(input, prices, n)) + Count(CutAt(input, prices, instruments, n, SingleCap))
            + Count(CutAt(input, prices, instruments, n, IndustryCap))
              + Count(CutAt(input, prices, instruments, n, StockCap))
  {
    var prices, instruments := QuotesOf(input), InstrumentsById(input.snapshot.instruments);
    QuotesArePositive(input.snapshot, input.prices);
    hide Quotes;
    hide InstrumentsById;
    hide CutAt;
    hide ReducePass;
    hide AfterExits;
    hide RiskPolicy.Valid;
    hide StrategyParameters.Valid;
    hide DrawdownReached;
    LastStage(input, prices, instruments);
    StagesCount(input, prices, instruments, n);
    var reduced, ranked := AfterReductions(input, prices, instruments).value, Sort(input.evaluation.signals, ByScore());
    hide AfterReductions;
    BuyPassSellsNothing(input, prices, ReadyToBuy(reduced), ranked, |ranked|,
                        SortPositions(input.positions)[n].instrument);
    hide Sort;
    hide BuyPass;
    hide Sum;
    hide ExitAt;
    hide SortPositions;
  }

  lemma StagesCount(input: PortfolioInput, prices: map<int, int>, instruments: map<int, Instrument>, n: nat)
    requires instruments == InstrumentsById(input.snapshot.instruments)
    requires Rows(input.positions) && Investable(input.positions, instruments)
    requires PositivePrices(prices) && input.nav > 0 && input.policy.Valid()
    requires StageAfter(input, prices, instruments, StockCap).Ok? && n < |input.positions|
    ensures n < |SortPositions(input.positions)|
    ensures Sum(StageAfter(input, prices, instruments, StockCap).value.orders,
                SellsOf(SortPositions(input.positions)[n].instrument))
         == Count(ExitAt(input, prices, n)) + Count(CutAt(input, prices, instruments, n, SingleCap))
            + Count(CutAt(input, prices, instruments, n, IndustryCap))
              + Count(CutAt(input, prices, instruments, n, StockCap))
  {
    hide CutAt;
    hide AfterExits;
    hide InstrumentsById;
    hide ReducePass;
    hide Investable;
    hide RiskPolicy.Valid;
    StageCounts(input, prices, instruments, StockCap);
    StageCounts(input, prices, instruments, IndustryCap);
    StageCounts(input, prices, instruments, SingleCap);
    ExitsCount(input, prices);
    StageSells(input, prices, instruments, n, StockCap);
    StageSells(input, prices, instruments, n, IndustryCap);
    StageSells(input, prices, instruments, n, SingleCap);
    var start, exits := StartDraft(input), StageBefore(input, prices, instruments, SingleCap).value;
    var single, sector := StageBefore(input, prices, instruments, IndustryCap).value,
                          StageBefore(input, prices, instruments, StockCap).value;
    var stocks := StageAfter(input, prices, instruments, StockCap).value;
    hide StageBefore;
    hide StageAfter;
    assert CountedRow(start, exits, n) && CountedRow(exits, single, n);
    assert CountedRow(single, sector, n) && CountedRow(sector, stocks, n);
    hide CountedTo;
    hide SortPositions;
    hide Rows;
  }

  predicate TwoOf(a: bool, b: bool, c: bool, d: bool) {
    (a && (b || c || d)) || (b && (c || d)) || (c && d)
  }

  /** A plan sells a name twice if and only if two of these happen: the exits sell it, and the single-name, industry or
      stock limit is exceeded when its row is reached. */
  lemma SoldTwiceIff(input: PortfolioInput, n: nat)
    requires Plans(input) && n < |input.positions|
    ensures n < |SortPositions(input.positions)|
    ensures var prices, instruments := QuotesOf(input), InstrumentsById(input.snapshot.instruments);
      Sum(BuildRebalance(input).value.orders, SellsOf(SortPositions(input.positions)[n].instrument)) >= 2
      <==> TwoOf(ExitAt(input, prices, n), CutAt(input, prices, instruments, n, SingleCap),
                 CutAt(input, prices, instruments, n, IndustryCap), CutAt(input, prices, instruments, n, StockCap))
  {
    SellsOfPlan(input, n);
    hide BuildRebalance;
    hide Plans;
    hide ExitAt;
    hide CutAt;
    hide Sum;
    hide SortPositions;
    hide QuotesOf;
    hide InstrumentsById;
  }

  lemma SingleExceeds(input: PortfolioInput, prices: map<int, int>, instruments: map<int, Instrument>, d: Draft, n: nat)
    requires n < |d.positions| && Rows(d.positions) && input.nav > 0 && input.policy.Valid()
    requires d.positions[n].quantity > 0 ==> HoldingsExposure(d.positions, prices, instruments).Ok?
    ensures Exceeds(input, prices, instruments, d, n, SingleCap) <==>
      ValueAt(prices, d.positions[n]) > CapLimit(input, SingleCap)
  {
    var p := d.positions[n];
    LimitIsNonNegative(input.nav, input.policy.singleWeight);
    if p.quantity > 0 {
      ExposureIsValue(d.positions, prices, instruments);
      NameValueOfRow(d.positions, prices, n);
    }
    hide HoldingsExposure;
    hide RoundedGross;
    hide MoneyLimit;
    hide Rows;
  }

  /** The single-name limit is exceeded exactly when what the exits left of the name is worth more than it. */
  lemma SingleCutIff(input: PortfolioInput, prices: map<int, int>, instruments: map<int, Instrument>, n: nat)
    requires Rows(input.positions) && input.nav > 0 && input.policy.Valid()
    requires StageAfter(input, prices, instruments, SingleCap).Ok? && n < |input.positions|
    ensures AfterExits(input, prices).Ok? && n < |AfterExits(input, prices).value.positions|
    ensures CutAt(input, prices, instruments, n, SingleCap)
       <==> ValueAt(prices, AfterExits(input, prices).value.positions[n]) > CapLimit(input, SingleCap)
  {
    hide RiskPolicy.Valid;
    hide AfterExits;
    hide CapLimit;
    hide CountedRow;
    hide AppendSell;
    hide KeptQuantity;
    hide ValueAt;
    hide HoldingsExposure;
    StageCounts(input, prices, instruments, SingleCap);
    var d := StageBefore(input, prices, instruments, SingleCap).value;
    LaterSteps(input, prices, instruments, d, n, |d.positions|, SingleCap);
    LaterSteps(input, prices, instruments, d, n + 1, |d.positions|, SingleCap);
    ReducePassCounts(input, prices, instruments, d, n, SingleCap);
    var turn := ReducePass(input, prices, instruments, d, n, SingleCap).value;
    assert turn.positions[n] == d.positions[n];
    assert ReduceStep(input, prices, instruments, turn, n, SingleCap).Ok?;
    SingleExceeds(input, prices, instruments, turn, n);
    hide Rows;
    hide Exceeds;
    hide ReducePass;
  }

  lemma ExitSizing(input: PortfolioInput, prices: map<int, int>, d: Draft, n: nat, price: int, size: OrderSize)
    requires Quotes(input.snapshot, input.prices) == Ok(prices) && n < |d.positions| && Rows(d.positions)
    requires Investable(d.positions, InstrumentsById(input.snapshot.instruments))
    requires var p := d.positions[n]; 0 < p.quantity <= MAX_ORDER_QUANTITY && p.reservedQuantity == 0
    requires OrderSizing(SellRequest(input, d, n, price, d.positions[n].quantity, ExitSignal)) == Ok(size)
    ensures size == Sized(d.positions[n].quantity, GrossWithin(price, NotBelowZero(TurnoverLimit(input) - d.turnover)),
                          RiskLimitExceeded)
  {
    FreeSharesOfRow(d.positions, n);
    hide FreeShares;
    hide Rows;
    hide Quotes;
    hide InstrumentsById;
    hide MoneyLimit;
    hide RiskPolicy.Valid;
    hide DrawdownReached;
  }

  /** An exit on the score sells as much of the row as the turnover left allows: all of it exactly when its value
      fits. */
  lemma ExitSize(input: PortfolioInput, prices: map<int, int>, signals: map<int, Signal>, d: Draft, n: nat)
    requires Quotes(input.snapshot, input.prices) == Ok(prices) && n < |d.positions| && Rows(d.positions)
    requires Investable(d.positions, InstrumentsById(input.snapshot.instruments))
    requires var p := d.positions[n];
      && 0 < p.quantity <= MAX_ORDER_QUANTITY && p.reservedQuantity == 0 && p.instrument in prices
      && p.instrument !in d.blocked
      && p.instrument in signals && signals[p.instrument].score < input.parameters.exitScore
    requires ExitStep(input, prices, signals, d, n, false).Ok?
    ensures var p, e := d.positions[n], ExitStep(input, prices, signals, d, n, false).value;
      var left := NotBelowZero(TurnoverLimit(input) - d.turnover);
      && |e.positions| == |d.positions|
      && e.positions[n].quantity == p.quantity - MaxWholeQuantity(p.quantity, GrossWithin(prices[p.instrument], left))
      && (e.positions[n].quantity == 0 <==> RoundedGross(prices[p.instrument], p.quantity) <= left)
  {
    var p, left := d.positions[n], NotBelowZero(TurnoverLimit(input) - d.turnover);
    var price := prices[p.instrument];
    hide OrderSizing;
    hide Quotes;
    hide InstrumentsById;
    hide MoneyLimit;
    hide MaxWholeQuantity;
    var size := OrderSizing(SellRequest(input, d, n, price, p.quantity, ExitSignal));
    assert size.Ok?;
    ExitSizing(input, prices, d, n, price, size.value);
    SizingIsOptimal(p.quantity, GrossWithin(price, left));
    hide Rows;
    hide Investable;
    assert GrossValue(price, p.quantity).Ok?;
    assert Fits(GrossWithin(price, left), p.quantity) <==> RoundedGross(price, p.quantity) <= left;
    hide Fits;
  }
}
