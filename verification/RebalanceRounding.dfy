// The cent that rounding can add to a top-up: when a plan ends a cent over a limit, and which holdings make that
// possible.
module RebalanceRounding {
  import opened Outcomes
  import opened Money
  import opened Sizing
  import opened Domain
  import opened Lists
  import opened Sums
  import opened Holdings
  import opened Snapshots
  import opened Risk
  import opened Rebalance
  import opened RebalanceSteps
  import opened RebalanceBudgets
  import opened RebalanceCaps

  // ---------- The buys of a plan ----------

  /** What a limit leaves for a name: of its industry, or of all stocks. */
  function Room(input: PortfolioInput, prices: map<int, int>, instruments: map<int, Instrument>,
                positions: seq<Position>, id: int, cap: Cap): int {
    match cap
    case SingleCap => CapLimit(input, SingleCap) - Sum(positions, NameValue(prices, id))
    case IndustryCap => CapLimit(input, IndustryCap)
      - Sum(positions, IndustryValue(prices, instruments, IndustryOf(instruments, id)))
    case StockCap => CapLimit(input, StockCap) - Sum(positions, StockValue(prices))
  }

  /** A top-up whose own value takes all the room of its industry or of the stocks, and whose rests carry a cent. */
  ghost predicate Overfills(input: PortfolioInput, prices: map<int, int>, instruments: map<int, Instrument>, d: Draft,
                            s: Signal)
    requires SoundHeld(d)
  {
    var id, size := s.instrument, Bought(input, prices, d, s);
    && size > 0
    && CarriesCent(prices[id], CurrentQuantity(d, id), size)
    && (RoundedGross(prices[id], size) == Room(input, prices, instruments, d.positions, id, IndustryCap)
        || RoundedGross(prices[id], size) == Room(input, prices, instruments, d.positions, id, StockCap))
  }

  /** One of the first `n` buys overfills. */
  ghost predicate Overfilled(input: PortfolioInput, prices: map<int, int>, instruments: map<int, Instrument>, d: Draft,
                             ranked: seq<Signal>, n: nat)
    requires n <= |ranked| && SoundHeld(d)
  {
    n > 0
    && (Overfilled(input, prices, instruments, d, ranked, n - 1)
        || (BuyPass(input, prices, d, ranked, n - 1).Ok?
            && Overfills(input, prices, instruments, BuyPass(input, prices, d, ranked, n - 1).value, ranked[n - 1])))
  }

  /** Whether a total that counts the name grows by the value of a top-up and a cent, or by that value at most. */
  predicate Grows(before: int, after: int, gross: int, carries: bool) {
    if carries then after == before + gross + 1 else after <= before + gross
  }

  lemma BuyTotals(input: PortfolioInput, prices: map<int, int>, instruments: map<int, Instrument>, d: Draft, e: Draft,
                  id: int, size: int)
    requires PositivePrices(prices) && Rows(d.positions) && IndexedRows(d)
    requires BuyMade(input, prices, instruments, d, e, id, size)
    ensures var carries := CarriesCent(prices[id], CurrentQuantity(d, id), size);
      && Grows(Sum(d.positions, StockValue(prices)), Sum(e.positions, StockValue(prices)),
               RoundedGross(prices[id], size), carries)
      && forall k :: k != UNKNOWN_INDUSTRY ==>
           var before, after := Sum(d.positions, IndustryValue(prices, instruments, k)),
                                Sum(e.positions, IndustryValue(prices, instruments, k));
           if k == instruments[id].industry then Grows(before, after, RoundedGross(prices[id], size), carries)
              else after == before
  {
    hide MoneyLimit;
    hide RoundedGross;
    hide CarriesCent;
    hide HoldingsExposure;
    hide PurchaseCost;
    hide WithinTurnover;
    hide ValueAt;
    BuyAddsValue(prices, d, id, size, StockValue(prices), true);
    forall k | k != UNKNOWN_INDUSTRY
      ensures var before, after := Sum(d.positions, IndustryValue(prices, instruments, k)),
        Sum(e.positions, IndustryValue(prices, instruments, k));
        if k == instruments[id].industry
        then Grows(before, after, RoundedGross(prices[id], size), CarriesCent(prices[id], CurrentQuantity(d, id), size))
        else after == before
    {
      BuyAddsValue(prices, d, id, size, IndustryValue(prices, instruments, k), k == instruments[id].industry);
    }
  }

  /** The value of a buy is within the room of its industry and of the stocks. */
  lemma BuyWithinRoom(input: PortfolioInput, prices: map<int, int>, instruments: map<int, Instrument>, d: Draft,
                      e: Draft, id: int, size: int)
    requires SoundHeld(d) && BuyMade(input, prices, instruments, d, e, id, size)
    ensures 0 <= RoundedGross(prices[id], size) <= Room(input, prices, instruments, d.positions, id, IndustryCap)
    ensures RoundedGross(prices[id], size) <= Room(input, prices, instruments, d.positions, id, StockCap)
  {
    ExposureIsValue(d.positions, prices, instruments);
    MulMonotone(prices[id], 0, size);
    hide MoneyLimit;
    hide HoldingsExposure;
    hide Sum;
    hide ValueAt;
    hide CurrentQuantity;
    hide Project;
    hide PurchaseCost;
    hide WithinTurnover;
    hide GrossAtMost;
  }

  /** A buy that does not overfill leaves every limit met exactly that was, and one that does breaks one. */
  lemma BuyIsExact(input: PortfolioInput, prices: map<int, int>, instruments: map<int, Instrument>, d: Draft, e: Draft,
                   s: Signal)
    requires PositivePrices(prices) && Rows(d.positions) && IndexedRows(d)
    requires Capped(input, prices, instruments, d.positions, 1)
    requires Bought(input, prices, d, s) > 0
    requires BuyMade(input, prices, instruments, d, e, s.instrument, Bought(input, prices, d, s))
    ensures Capped(input, prices, instruments, e.positions, 0)
       <==> Capped(input, prices, instruments, d.positions, 0) && !Overfills(input, prices, instruments, d, s)
  {
    var id, size := s.instrument, Bought(input, prices, d, s);
    BuyTotals(input, prices, instruments, d, e, id, size);
    BuyWithinRoom(input, prices, instruments, d, e, id, size);
    BuyKeepsCaps(input, prices, instruments, d, e, id, size);
    assert Classified(instruments, id) && IndustryOf(instruments, id) == instruments[id].industry;
    hide MoneyLimit;
    hide RoundedGross;
    hide CarriesCent;
    hide BuyMade;
    hide Bought;
    hide ValueAt;
    hide Sum;
    hide Rows;
    hide IndexedRows;
    hide SoundHeld;
    hide CurrentQuantity;
  }

  lemma BuyStepIsExact(input: PortfolioInput, prices: map<int, int>, instruments: map<int, Instrument>, d: Draft,
                       s: Signal)
    requires instruments == InstrumentsById(input.snapshot.instruments)
    requires Quotes(input.snapshot, input.prices) == Ok(prices) && input.nav > 0 && PositivePrices(prices)
    requires Rows(d.positions) && IndexedRows(d) && Capped(input, prices, instruments, d.positions, 1)
    requires BuyStep(input, prices, d, s).Ok?
    ensures var e := BuyStep(input, prices, d, s).value;
      Rows(e.positions) && IndexedRows(e) && Capped(input, prices, instruments, e.positions, 1)
    ensures Capped(input, prices, instruments, BuyStep(input, prices, d, s).value.positions, 0)
       <==> Capped(input, prices, instruments, d.positions, 0) && !Overfills(input, prices, instruments, d, s)
  {
    BuyStepEffect(input, prices, d, s);
    var e, size := BuyStep(input, prices, d, s).value, Bought(input, prices, d, s);
    if size > 0 {
      ProjectRows(d, s.instrument, size);
      BuyKeepsCaps(input, prices, instruments, d, e, s.instrument, size);
      BuyIsExact(input, prices, instruments, d, e, s);
    }
    hide BuyStep;
    hide Bought;
    hide Capped;
    hide RoundedGross;
    hide HoldingsExposure;
    hide Room;
    hide CarriesCent;
  }

  lemma {:induction false} BuyPassIsExact(input: PortfolioInput, prices: map<int, int>,
                                          instruments: map<int, Instrument>, d: Draft, ranked: seq<Signal>, n: nat)
    requires instruments == InstrumentsById(input.snapshot.instruments)
    requires Quotes(input.snapshot, input.prices) == Ok(prices) && input.nav > 0 && PositivePrices(prices)
    requires n <= |ranked| && Rows(d.positions) && IndexedRows(d) && Capped(input, prices, instruments, d.positions, 0)
    requires BuyPass(input, prices, d, ranked, n).Ok?
    ensures var e := BuyPass(input, prices, d, ranked, n).value;
      && Rows(e.positions) && IndexedRows(e) && Capped(input, prices, instruments, e.positions, 1)
      && (Capped(input, prices, instruments, e.positions, 0) <==> !Overfilled(input, prices, instruments, d, ranked, n))
  {
    if n == 0 {
      hide ValueAt;
      hide MoneyLimit;
    } else {
      hide BuyStep;
      hide Capped;
      hide Overfills;
      hide Rows;
      hide IndexedRows;
      BuyPassIsExact(input, prices, instruments, d, ranked, n - 1);
      BuyStepIsExact(input, prices, instruments, BuyPass(input, prices, d, ranked, n - 1).value, ranked[n - 1]);
    }
  }

  // ---------- Plans ----------

  /** `projected` is what the portfolio becomes when every order of the plan is filled in full. */
  ghost predicate Projected(input: PortfolioInput, plan: RebalancePlan, projected: seq<Position>) {
    && Rows(projected)
    && forall id :: Held(projected, id) == Held(input.positions, id) + Sum(plan.orders, TradeOf(id))
  }

  /** The rows a plan ends with. */
  function Projection(input: PortfolioInput): seq<Position> {
    var prices := Quotes(input.snapshot, input.prices);
    if prices.Err? then []
    else
      var d := FinalDraft(input, prices.value, InstrumentsById(input.snapshot.instruments));
      if d.Err? then [] else d.value.positions
  }

  /** A plan that neither pauses nor defers, for an account whose holdings are tradable stocks of a known industry. */
  ghost predicate Plans(input: PortfolioInput) {
    && Rows(input.positions) && input.account.balances.available >= 0
    && Investable(input.positions, InstrumentsById(input.snapshot.instruments))
    && BuildRebalance(input).Ok? && !BuildRebalance(input).value.pause && !Unresolved(input.orders)
    && Quotes(input.snapshot, input.prices).Ok?
  }

  function QuotesOf(input: PortfolioInput): map<int, int> {
    var prices := Quotes(input.snapshot, input.prices);
    if prices.Ok? then prices.value else map[]
  }

  /** Every limit is met by the portfolio a plan leads to, up to a slack in cents on the two totals. */
  ghost predicate EndsCapped(input: PortfolioInput, slack: int) {
    Capped(input, QuotesOf(input), InstrumentsById(input.snapshot.instruments), Projection(input), slack)
  }

  /** Some buy of the plan takes all the room it has while its rests carry a cent. */
  ghost predicate PlanOverfills(input: PortfolioInput) {
    var prices, instruments := QuotesOf(input), InstrumentsById(input.snapshot.instruments);
    var reduced, ranked := AfterReductions(input, prices, instruments), Sort(input.evaluation.signals, ByScore());
    reduced.Ok? && Overfilled(input, prices, instruments, ReadyToBuy(reduced.value), ranked, |ranked|)
  }

  /** If a plan neither pauses nor defers, the portfolio it leads to has every name within the single limit exactly, and
      every industry and the stock total within their limits plus at most one cent. They are within their limits exactly
      if and only if no top-up takes all the room it has while its rests carry a cent. */
  lemma PlanMeetsCaps(input: PortfolioInput)
    requires Plans(input)
    ensures Projected(input, BuildRebalance(input).value, Projection(input))
    ensures EndsCapped(input, 1)
    ensures EndsCapped(input, 0) <==> !PlanOverfills(input)
  {
    var prices := Quotes(input.snapshot, input.prices).value;
    var instruments := InstrumentsById(input.snapshot.instruments);
    var ranked := Sort(input.evaluation.signals, ByScore());
    var ready := ReadyToBuy(AfterReductions(input, prices, instruments).value);
    hide MoneyLimit;
    hide RoundedGross;
    QuotesArePositive(input.snapshot, input.prices);
    ReductionsMeetCaps(input, prices, instruments);
    SellsAreAccounted(input, prices, instruments);
    hide Capped;
    hide Overfilled;
    hide Quotes;
    hide Sort;
    BuyPassKeepsAccounts(input, prices, ready, ranked, |ranked|);
    BuyPassIsExact(input, prices, instruments, ready, ranked, |ranked|);
  }

  // ---------- Holdings that cannot overfill ----------

  /** A signal the engine would buy on, unless its name has been sold. */
  predicate Enters(input: PortfolioInput, s: Signal) {
    s.score >= input.parameters.entryScore && s.level != HighRisk && s.level != UnknownRisk
  }

  function EntriesOf(input: PortfolioInput, id: int): Signal -> int {
    (s: Signal) => if Enters(input, s) && s.instrument == id then 1 else 0
  }

  /** Each name to enter has one signal, and what is held of it is not rounded down with a rest. */
  ghost predicate Steady(input: PortfolioInput, prices: map<int, int>) {
    forall s :: s in input.evaluation.signals && Enters(input, s) && s.instrument in prices ==>
      && Sum(input.evaluation.signals, EntriesOf(input, s.instrument)) == 1
      && !Prone(prices[s.instrument], Held(input.positions, s.instrument))
  }

  /** A name that has not been sold is still held as before. */
  ghost predicate Untouched(input: PortfolioInput, d: Draft) {
    forall id :: id !in d.blocked ==> Held(d.positions, id) == Held(input.positions, id)
  }

  lemma SellKeepsUntouched(input: PortfolioInput, prices: map<int, int>, d: Draft, n: nat, quantity: int,
                           reason: Reason)
    requires n < |d.positions| && Untouched(input, d)
    requires AppendSell(input, prices, d, n, quantity, reason).Ok?
    ensures Untouched(input, AppendSell(input, prices, d, n, quantity, reason).value)
  {
    hide ValidateOrder;
    hide GrossValue;
    var e := AppendSell(input, prices, d, n, quantity, reason).value;
    forall id | id !in e.blocked
      ensures Held(e.positions, id) == Held(d.positions, id)
    {
      if e.positions != d.positions {
        SumUpdate(d.positions, n, e.positions[n], SharesOf(id));
      }
    }
  }

  lemma {:induction false} ExitPassKeepsUntouched(input: PortfolioInput, prices: map<int, int>,
                                                  signals: map<int, Signal>, d: Draft, n: nat, stop: bool)
    requires n <= |d.positions| && Untouched(input, d) && ExitPass(input, prices, signals, d, n, stop).Ok?
    ensures Untouched(input, ExitPass(input, prices, signals, d, n, stop).value)
  {
    hide AppendSell;
    hide Untouched;
    if n > 0 {
      ExitPassKeepsUntouched(input, prices, signals, d, n - 1, stop);
      var before := ExitPass(input, prices, signals, d, n - 1, stop).value;
      var quantity := before.positions[n - 1].quantity;
      if AppendSell(input, prices, before, n - 1, quantity, StopLoss).Ok? {
        SellKeepsUntouched(input, prices, before, n - 1, quantity, StopLoss);
      }
      if AppendSell(input, prices, before, n - 1, quantity, ExitSignal).Ok? {
        SellKeepsUntouched(input, prices, before, n - 1, quantity, ExitSignal);
      }
    }
  }

  lemma ReduceStepKeepsUntouched(input: PortfolioInput, prices: map<int, int>, instruments: map<int, Instrument>,
                                 d: Draft, n: nat, cap: Cap)
    requires n < |d.positions| && Untouched(input, d) && ReduceStep(input, prices, instruments, d, n, cap).Ok?
    ensures Untouched(input, ReduceStep(input, prices, instruments, d, n, cap).value)
  {
    hide AppendSell;
    hide Untouched;
    hide PortfolioExposure;
    hide KeptQuantity;
    var p := d.positions[n];
    if p.quantity > 0 {
      var x := PortfolioExposure(d.positions, [], prices, instruments, None).value;
      var kept := KeptQuantity(At(prices, p.instrument), p.quantity, At(x.byId, p.instrument),
                               CapExposure(x, instruments, p.instrument, cap) - CapLimit(input, cap));
      if AppendSell(input, prices, d, n, p.quantity - kept, CapReason(cap)).Ok? {
        SellKeepsUntouched(input, prices, d, n, p.quantity - kept, CapReason(cap));
      }
    }
  }

  lemma {:induction false} ReducePassKeepsUntouched(input: PortfolioInput, prices: map<int, int>,
                                                    instruments: map<int, Instrument>, d: Draft, n: nat, cap: Cap)
    requires n <= |d.positions| && Untouched(input, d) && ReducePass(input, prices, instruments, d, n, cap).Ok?
    ensures Untouched(input, ReducePass(input, prices, instruments, d, n, cap).value)
  {
    hide ReduceStep;
    hide Untouched;
    if n > 0 {
      ReducePassKeepsUntouched(input, prices, instruments, d, n - 1, cap);
      ReduceStepKeepsUntouched(input, prices, instruments, ReducePass(input, prices, instruments, d, n - 1, cap).value,
                               n - 1, cap);
    }
  }

  lemma SellsLeaveUntouched(input: PortfolioInput, prices: map<int, int>, instruments: map<int, Instrument>)
    requires Rows(input.positions) && AfterReductions(input, prices, instruments).Ok?
    ensures Untouched(input, AfterReductions(input, prices, instruments).value)
  {
    SortKeepsRows(input.positions);
    var start, signals := StartDraft(input), SignalsById(Sort(input.evaluation.signals, ByScore()));
    assert Untouched(input, start);
    hide Untouched;
    hide ExitPass;
    hide ReducePass;
    ExitPassKeepsUntouched(input, prices, signals, start, |start.positions|, true);
    var stopped := ExitPass(input, prices, signals, start, |start.positions|, true).value;
    ExitPassKeepsUntouched(input, prices, signals, stopped, |stopped.positions|, false);
    var exits := AfterExits(input, prices).value;
    ReducePassKeepsUntouched(input, prices, instruments, exits, |exits.positions|, SingleCap);
    var single := ReducePass(input, prices, instruments, exits, |exits.positions|, SingleCap).value;
    ReducePassKeepsUntouched(input, prices, instruments, single, |single.positions|, IndustryCap);
    var sector := ReducePass(input, prices, instruments, single, |single.positions|, IndustryCap).value;
    ReducePassKeepsUntouched(input, prices, instruments, sector, |sector.positions|, StockCap);
  }

  lemma CurrentIsHeld(d: Draft, id: int)
    requires Rows(d.positions) && IndexedRows(d)
    ensures CurrentQuantity(d, id) == Held(d.positions, id)
  {
    var n := IndexOf(d.positions, id);
    if n < |d.positions| {
      RowTotals(d.positions, d.held[id]);
    } else {
      NoRowTotals(d.positions, id);
    }
  }

  /** No name to enter comes twice, and those still to come are held as before. */
  ghost predicate Waiting(input: PortfolioInput, prices: map<int, int>, d: Draft, ranked: seq<Signal>, n: nat)
    requires SoundHeld(d)
  {
    forall j :: n <= j < |ranked| && Candidate(input, d, ranked[j]) && ranked[j].instrument in prices ==>
      && CurrentQuantity(d, ranked[j].instrument) == Held(input.positions, ranked[j].instrument)
      && !Prone(prices[ranked[j].instrument], Held(input.positions, ranked[j].instrument))
      && forall k :: j < k < |ranked| && Enters(input, ranked[k]) ==> ranked[k].instrument != ranked[j].instrument
  }

  lemma BuyStepLeavesOthers(input: PortfolioInput, prices: map<int, int>, d: Draft, s: Signal)
    requires SoundHeld(d) && BuyStep(input, prices, d, s).Ok?
    ensures var e := BuyStep(input, prices, d, s).value;
      && e.blocked == d.blocked
      && (Candidate(input, d, s) || e == d)
      && forall id :: id != s.instrument ==> CurrentQuantity(e, id) == CurrentQuantity(d, id)
  {
    hide BuySize;
    hide GrossValue;
    hide PurchaseCost;
  }

  lemma WaitingGoesOn(input: PortfolioInput, prices: map<int, int>, d: Draft, ranked: seq<Signal>, n: nat)
    requires SoundHeld(d) && n < |ranked| && Waiting(input, prices, d, ranked, n)
    requires BuyStep(input, prices, d, ranked[n]).Ok?
    ensures Waiting(input, prices, BuyStep(input, prices, d, ranked[n]).value, ranked, n + 1)
  {
    BuyStepLeavesOthers(input, prices, d, ranked[n]);
    var e := BuyStep(input, prices, d, ranked[n]).value;
    assert Candidate(input, d, ranked[n]) && ranked[n].instrument !in prices ==>
      CurrentQuantity(e, ranked[n].instrument) == CurrentQuantity(d, ranked[n].instrument);
    hide BuyStep;
    hide Prone;
  }

  lemma {:induction false} SteadyPass(input: PortfolioInput, prices: map<int, int>, instruments: map<int, Instrument>,
                                      d: Draft, ranked: seq<Signal>, n: nat)
    requires SoundHeld(d) && n <= |ranked| && Waiting(input, prices, d, ranked, 0)
    ensures !Overfilled(input, prices, instruments, d, ranked, n)
    ensures BuyPass(input, prices, d, ranked, n).Ok? ==>
      Waiting(input, prices, BuyPass(input, prices, d, ranked, n).value, ranked, n)
  {
    hide BuyStep;
    hide Waiting;
    if n > 0 {
      SteadyPass(input, prices, instruments, d, ranked, n - 1);
      var before := BuyPass(input, prices, d, ranked, n - 1);
      if before.Ok? {
        SteadyStep(input, prices, instruments, before.value, ranked, n - 1);
        if BuyStep(input, prices, before.value, ranked[n - 1]).Ok? {
          WaitingGoesOn(input, prices, before.value, ranked, n - 1);
        }
      }
    }
  }

  lemma SteadyStep(input: PortfolioInput, prices: map<int, int>, instruments: map<int, Instrument>, d: Draft,
                   ranked: seq<Signal>, n: nat)
    requires SoundHeld(d) && n < |ranked| && Waiting(input, prices, d, ranked, n)
    ensures !Overfills(input, prices, instruments, d, ranked[n])
  {
    var id, size := ranked[n].instrument, Bought(input, prices, d, ranked[n]);
    if size > 0 && CarriesCent(prices[id], CurrentQuantity(d, id), size) {
      OnlyProneCarry(prices[id], CurrentQuantity(d, id), size);
    }
  }

  lemma EntersOnce(input: PortfolioInput, ranked: seq<Signal>, j: nat, k: nat)
    requires j < k < |ranked| && Enters(input, ranked[j]) && Enters(input, ranked[k])
    requires Sum(ranked, EntriesOf(input, ranked[j].instrument)) == 1
    ensures ranked[k].instrument != ranked[j].instrument
  {
    var f := EntriesOf(input, ranked[j].instrument);
    SumSplit(ranked, j, f);
    SumNonNegative(ranked[..j], f);
    TermWithinSum(ranked[j + 1..], k - j - 1, f);
  }

  lemma SteadyIsWaiting(input: PortfolioInput, prices: map<int, int>, d: Draft, ranked: seq<Signal>)
    requires Steady(input, prices) && Untouched(input, d) && ranked == Sort(input.evaluation.signals, ByScore())
    requires Rows(d.positions)
    ensures Waiting(input, prices, ReadyToBuy(d), ranked, 0)
  {
    var ready := ReadyToBuy(d);
    SortPermutes(input.evaluation.signals, ByScore());
    hide Sort;
    forall j | 0 <= j < |ranked| && Candidate(input, ready, ranked[j]) && ranked[j].instrument in prices
      ensures CurrentQuantity(ready, ranked[j].instrument) == Held(input.positions, ranked[j].instrument)
      ensures !Prone(prices[ranked[j].instrument], Held(input.positions, ranked[j].instrument))
      ensures forall k :: j < k < |ranked| && Enters(input, ranked[k]) ==> ranked[k].instrument != ranked[j].instrument
    {
      var id := ranked[j].instrument;
      assert ranked[j] in multiset(ranked);
      assert ranked[j] in input.evaluation.signals && Enters(input, ranked[j]);
      SumPermuted(ranked, input.evaluation.signals, EntriesOf(input, id));
      CurrentIsHeld(ready, id);
      forall k | j < k < |ranked| && Enters(input, ranked[k])
        ensures ranked[k].instrument != id
      {
        EntersOnce(input, ranked, j, k);
      }
    }
  }

  /** A steady input meets every limit exactly, whatever its cash, limits, turnover and scores. */
  lemma SteadyPlansAreExact(input: PortfolioInput)
    requires Plans(input) && Steady(input, QuotesOf(input))
    ensures EndsCapped(input, 0)
  {
    var prices, instruments := Quotes(input.snapshot, input.prices).value, InstrumentsById(input.snapshot.instruments);
    var ranked := Sort(input.evaluation.signals, ByScore());
    PlanMeetsCaps(input);
    hide BuildRebalance;
    hide EndsCapped;
    if PlanOverfills(input) {
      var reduced := AfterReductions(input, prices, instruments).value;
      hide AfterReductions;
      QuotesArePositive(input.snapshot, input.prices);
      ReductionsMeetCaps(input, prices, instruments);
      SellsLeaveUntouched(input, prices, instruments);
      hide Untouched;
      hide Steady;
      hide Capped;
      hide Sort;
      SteadyIsWaiting(input, prices, reduced, ranked);
      SteadyPass(input, prices, instruments, ReadyToBuy(reduced), ranked, |ranked|);
    }
  }

  predicate WholeCents(prices: map<int, int>) {
    forall id :: id in prices ==> prices[id] % 10000 == 0
  }

  lemma WholePriceHasNoRest(price: int, quantity: int)
    requires price % 10000 == 0
    ensures Rest(price, quantity) == 0
  {
    var c := price / 10000;
    assert price == 10000 * c;
    assert price * quantity == 10000 * (c * quantity);
  }

  /** Prices in whole cents never overfill, even when a name is signalled twice. */
  lemma {:induction false} WholeCentsNeverOverfill(input: PortfolioInput, prices: map<int, int>,
                                                   instruments: map<int, Instrument>, d: Draft,
                                                   ranked: seq<Signal>, n: nat)
    requires WholeCents(prices) && n <= |ranked| && SoundHeld(d)
    ensures !Overfilled(input, prices, instruments, d, ranked, n)
  {
    hide BuyPass;
    hide Rest;
    if n > 0 {
      WholeCentsNeverOverfill(input, prices, instruments, d, ranked, n - 1);
      if BuyPass(input, prices, d, ranked, n - 1).Ok? {
        var e, s := BuyPass(input, prices, d, ranked, n - 1).value, ranked[n - 1];
        if Bought(input, prices, e, s) > 0 {
          WholePriceHasNoRest(prices[s.instrument], Bought(input, prices, e, s));
          WholePriceHasNoRest(prices[s.instrument], CurrentQuantity(e, s.instrument));
        }
      }
    }
  }

  lemma WholeCentPlansAreExact(input: PortfolioInput)
    requires Plans(input) && WholeCents(QuotesOf(input))
    ensures EndsCapped(input, 0)
  {
    PlanMeetsCaps(input);
    hide Plans;
    hide EndsCapped;
    hide WholeCents;
    var prices, instruments := QuotesOf(input), InstrumentsById(input.snapshot.instruments);
    var reduced, ranked := AfterReductions(input, prices, instruments), Sort(input.evaluation.signals, ByScore());
    if reduced.Ok? {
      WholeCentsNeverOverfill(input, prices, instruments, ReadyToBuy(reduced.value), ranked, |ranked|);
    }
    hide QuotesOf;
    hide AfterReductions;
    hide Overfilled;
    hide Sort;
  }
}
