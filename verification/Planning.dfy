/** Planning a session: the orders issued keep the invariant, and every order a plan asks for can be reserved. */
module Planning {
  import opened Outcomes
  import opened Money
  import opened Sizing
  import opened Domain
  import opened Calendars
  import opened Lists
  import opened Sums
  import opened Holdings
  import opened Ledger
  import opened Reservations
  import opened Snapshots
  import opened Risk
  import opened Rebalance
  import opened RebalanceSteps
  import opened RebalanceBudgets
  import opened Execution
  import opened Replay
  import opened BookEvents
  import opened BookMeaning
  import opened Causality
  import opened Reconciling

  // ---------- Order numbers and capacities ----------

  predicate PastFill(k: EventKey, date: int) {
    k.FillKey? ==> k.order.ReplayId? && k.order.day <= date
  }

  /** Fills belong to orders of days up to `date`, and took effect by `lastOpen`. */
  ghost predicate PastFills(b: Book, date: int, lastOpen: int) {
    && (forall i :: 0 <= i < |b.ledger| ==> PastFill(b.ledger[i].key, date))
    && (forall k :: k in b.settled ==> PastFill(k, date))
    && (forall n :: 0 <= n < |b.fills| ==> b.fills[n].effectiveAt <= lastOpen)
  }

  predicate NumberedOrder(o: Order, date: int, lastOpen: int) {
    o.id.ReplayId? && o.id.instrument == o.instrument && o.id.day <= date && o.targetOpenAt <= lastOpen
  }

  /** Orders with one number wait for the same opening until the same deadline. */
  predicate NumbersAgree(orders: seq<Order>) {
    forall m, n :: 0 <= m < |orders| && 0 <= n < |orders| && orders[m].id == orders[n].id
      ==> orders[m].targetOpenAt == orders[n].targetOpenAt && orders[m].expiresAt == orders[n].expiresAt
  }

  ghost predicate Numbered(b: Book, date: int, lastOpen: int) {
    && PastFills(b, date, lastOpen)
    && (forall n :: 0 <= n < |b.orders| ==> NumberedOrder(b.orders[n], date, lastOpen))
    && NumbersAgree(b.orders)
  }

  /** All shares filled for the opening and instrument of an order are within its capacity. */
  predicate CapacityKept(b: Book, o: Order) {
    Sum(b.fills, SharesFilled(o.targetOpenAt, o.instrument)) <= o.capacity
  }

  ghost predicate WithinCapacity(b: Book) {
    forall n :: 0 <= n < |b.orders| ==> CapacityKept(b, b.orders[n])
  }

  lemma ExtendsKeepsNumbers(b: Book, after: Book, date: int, lastOpen: int)
    requires Extends(b, after) && Numbered(b, date, lastOpen) && WithinCapacity(b)
    ensures Numbered(after, date, lastOpen) && WithinCapacity(after)
  {
    forall i | 0 <= i < |after.ledger|
      ensures PastFill(after.ledger[i].key, date)
    {
      if i < |b.ledger| {
        assert after.ledger[i] == after.ledger[..|b.ledger|][i];
      }
    }
    forall n | 0 <= n < |after.orders|
      ensures NumberedOrder(after.orders[n], date, lastOpen) && CapacityKept(after, after.orders[n])
    {
      assert SameTerms(b.orders[n], after.orders[n]);
      assert CapacityKept(b, b.orders[n]);
    }
    forall m, n | 0 <= m < |after.orders| && 0 <= n < |after.orders| && after.orders[m].id == after.orders[n].id
      ensures after.orders[m].targetOpenAt == after.orders[n].targetOpenAt
      ensures after.orders[m].expiresAt == after.orders[n].expiresAt
    {
      assert SameTerms(b.orders[m], after.orders[m]) && SameTerms(b.orders[n], after.orders[n]);
    }
  }

  // ---------- While a plan is issued ----------

  predicate Issued(o: Order, target: Session, expiresAt: int) {
    && o.id.ReplayId? && o.id.instrument == o.instrument && o.id.day == target.date
    && o.targetOpenAt == target.openAt && o.expiresAt == expiresAt
  }

  ghost predicate Issuing(b: Book, date: int, lastOpen: int, target: Session, expiresAt: int) {
    && PastFills(b, date, lastOpen)
    && (forall n :: 0 <= n < |b.orders| ==>
          NumberedOrder(b.orders[n], date, lastOpen) || Issued(b.orders[n], target, expiresAt))
    && NumbersAgree(b.orders)
  }

  lemma SizedOrder(s: Snapshot, target: Session, expiresAt: int, p: PlannedOrder, cash: int)
    requires SizeOrder(s, target, expiresAt, p, cash).Ok? && SizeOrder(s, target, expiresAt, p, cash).value.Some?
    requires 0 < p.quantity <= MAX_ORDER_QUANTITY && s.asOf < target.openAt < expiresAt && cash >= 0
    ensures var o := SizeOrder(s, target, expiresAt, p, cash).value.value;
      && Issued(o, target, expiresAt) && o.createdAt == s.asOf && o.side == p.side && o.instrument == p.instrument
      && o.account == REPLAY_ACCOUNT && o.state == Pending && 0 < o.quantity <= p.quantity && o.capacity >= 0
      && (o.side == Buy ==> 0 < o.reservedCash <= cash && o.reservedQuantity == 0)
      && (o.side == Sell ==> o.reservedCash == 0 && o.reservedQuantity == o.quantity == p.quantity)
  {
    var bars := Filter(s.bars, OfInstrument(p.instrument));
    CapacityIsNonNegative(bars, target.openAt);
    hide PreviousVolumeCapacity;
    if p.side == Buy {
      CashSizingIsOptimal(LastClose(bars), p.quantity, cash);
      var size := SizeToCash(LastClose(bars), p.quantity, cash).value;
      CostMonotone(SlippedPrice(LastClose(bars), Buy).value, size, size);
    }
    hide SizeToCash;
    hide ReservationCost;
  }

  /** A new order waits for an opening no fill has reached yet. */
  lemma NewOrderIsFresh(b: Book, date: int, lastOpen: int, target: Session, expiresAt: int, o: Order)
    requires Issuing(b, date, lastOpen, target, expiresAt) && OpenAreUnfilled(b) && WithinCapacity(b)
    requires Issued(o, target, expiresAt) && date < target.date && lastOpen < target.openAt && o.capacity >= 0
    ensures FillKey(o.id) !in b.settled
    ensures forall i :: 0 <= i < |b.ledger| ==> b.ledger[i].key != FillKey(o.id)
    ensures CapacityKept(b, o)
    ensures NumbersAgree(b.orders + [o])
  {
    forall f | f in b.fills
      ensures SharesFilled(o.targetOpenAt, o.instrument)(f) == 0
    {
    }
    SumIsZero(b.fills, SharesFilled(o.targetOpenAt, o.instrument));
    forall i | 0 <= i < |b.ledger|
      ensures b.ledger[i].key != FillKey(o.id)
    {
      assert PastFill(b.ledger[i].key, date);
    }
    assert FillKey(o.id) in b.settled ==> PastFill(FillKey(o.id), date);
    hide Sum;
    forall n | 0 <= n < |b.orders| && b.orders[n].id == o.id
      ensures b.orders[n].targetOpenAt == o.targetOpenAt && b.orders[n].expiresAt == o.expiresAt
    {
    }
  }

  lemma IssueShape(b: Book, date: int, lastOpen: int, target: Session, expiresAt: int, o: Order)
    requires BackedBook(b) && OpenAreUnfilled(b) && WithinCapacity(b) && Issuing(b, date, lastOpen, target, expiresAt)
    requires Issued(o, target, expiresAt) && date < target.date && lastOpen < target.openAt && o.capacity >= 0
    requires Issue(b, o).Ok?
    ensures FillKey(o.id) !in b.settled
    ensures var after := Issue(b, o).value;
      && OpenAreUnfilled(after) && WithinCapacity(after)
      && Issuing(after, date, lastOpen, target, expiresAt)
      && NothingMoved(b, after) && after.applied == b.applied
  {
    NewOrderIsFresh(b, date, lastOpen, target, expiresAt, o);
    IssuePosts(b, o);
    var after := Issue(b, o).value;
    hide Issue;
    hide BackedBook;
    hide Sum;
    hide WellFormedReservation;
    hide NumbersAgree;
    forall n | 0 <= n < |after.orders|
      ensures CapacityKept(after, after.orders[n])
    {
      if n < |b.orders| {
        assert CapacityKept(b, b.orders[n]);
      }
    }
  }

  lemma IssueEffect(b: Book, date: int, lastOpen: int, target: Session, expiresAt: int, o: Order)
    requires Causal(b, o.createdAt) && OpenAreUnfilled(b) && WithinCapacity(b)
    requires Issuing(b, date, lastOpen, target, expiresAt)
    requires Issued(o, target, expiresAt) && date < target.date && lastOpen < target.openAt && o.capacity >= 0
    requires Issue(b, o).Ok?
    ensures var after := Issue(b, o).value;
      && Causal(after, o.createdAt) && OpenAreUnfilled(after) && WithinCapacity(after)
      && Issuing(after, date, lastOpen, target, expiresAt)
      && NothingMoved(b, after) && after.applied == b.applied
  {
    assert BackedBook(b);
    hide BackedBook;
    hide Causal;
    hide OpenAreUnfilled;
    hide WithinCapacity;
    hide Issuing;
    hide Issue;
    hide NothingMoved;
    hide Issued;
    IssueShape(b, date, lastOpen, target, expiresAt, o);
    IssueKeepsCausal(b, o);
  }

  lemma {:induction false} IssueOrdersEffect(b: Book, date: int, lastOpen: int, s: Snapshot, target: Session,
                                             expiresAt: int, planned: seq<PlannedOrder>, n: nat)
    requires n <= |planned|
    requires Causal(b, s.asOf) && OpenAreUnfilled(b) && WithinCapacity(b) && Numbered(b, date, lastOpen)
    requires date < target.date && lastOpen < target.openAt
    requires IssueOrders(b, s, target, expiresAt, planned, n).Ok?
    ensures var after := IssueOrders(b, s, target, expiresAt, planned, n).value.0;
      && Causal(after, s.asOf) && OpenAreUnfilled(after) && WithinCapacity(after)
      && Issuing(after, date, lastOpen, target, expiresAt)
      && NothingMoved(b, after) && after.applied == b.applied
  {
    hide Causal;
    hide OpenAreUnfilled;
    hide WithinCapacity;
    hide Issue;
    if n > 0 {
      IssueOrdersEffect(b, date, lastOpen, s, target, expiresAt, planned, n - 1);
      var (before, cash) := IssueOrders(b, s, target, expiresAt, planned, n - 1).value;
      var p := planned[n - 1];
      var sized := SizeOrder(s, target, expiresAt, p, cash).value;
      if sized.Some? {
        SizedTerms(s, target, expiresAt, p, cash);
        hide SizeOrder;
        hide Issuing;
        IssueEffect(before, date, lastOpen, target, expiresAt, sized.value);
        NothingMovedIsTransitive(b, before, Issue(before, sized.value).value);
      }
    }
  }

  lemma SizedTerms(s: Snapshot, target: Session, expiresAt: int, p: PlannedOrder, cash: int)
    requires SizeOrder(s, target, expiresAt, p, cash).Ok? && SizeOrder(s, target, expiresAt, p, cash).value.Some?
    ensures var o := SizeOrder(s, target, expiresAt, p, cash).value.value;
      Issued(o, target, expiresAt) && o.createdAt == s.asOf && o.capacity >= 0
  {
    CapacityIsNonNegative(Filter(s.bars, OfInstrument(p.instrument)), target.openAt);
    hide PreviousVolumeCapacity;
    hide SizeToCash;
    hide ReservationCost;
  }

  lemma SwitchOffKeeps(b: Book, now: int)
    requires Causal(b, now)
    ensures Causal(b.(account := b.account.(automationEnabled := false)), now)
  {
    var after := b.(account := b.account.(automationEnabled := false));
    forall cutoff
      ensures CoveredAt(after, cutoff)
    {
      assert CoveredAt(b, cutoff);
    }
    hide CoveredAt;
    hide NeverNegative;
    hide Sum;
  }

  /** Planning a session keeps the invariant whatever the plan is. */
  lemma PlanKeeps(b: Book, date: int, lastOpen: int, s: Snapshot, input: ReplayInput, target: Session)
    requires Causal(b, s.asOf) && OpenAreUnfilled(b) && WithinCapacity(b) && Numbered(b, date, lastOpen)
    requires date < target.date && lastOpen < target.openAt
    requires PlanSession(b, s, input, target).Ok?
    ensures var after := PlanSession(b, s, input, target).value;
      && Causal(after, s.asOf) && OpenAreUnfilled(after) && WithinCapacity(after)
      && Numbered(after, target.date, target.openAt)
      && NothingMoved(b, after) && after.applied == b.applied
  {
    hide Causal;
    hide BuildRebalance;
    hide ComputeNAV;
    hide EvaluationOf;
    hide IssueOrders;
    if b.account.automationEnabled && !Unresolved(b.orders) {
      var nav := ComputeNAV(b.account, b.positions, s, map[]).value;
      var plan := BuildRebalance(PlanInput(b, s, input, EvaluationOf(input, s).value, nav)).value;
      if plan.pause {
        SwitchOffKeeps(b, s.asOf);
      } else {
        var expiresAt := NextSession(s.calendar, target.closeAt).value.closeAt;
        IssueOrdersEffect(b, date, lastOpen, s, target, expiresAt, plan.orders, |plan.orders|);
      }
    }
  }

  // ---------- Plans can be reserved ----------

  /** The state while a plan is issued: what is left is what was free less what has been issued. */
  ghost predicate Reserving(b: Book, before: Book, cash: int, planned: seq<PlannedOrder>, n: nat)
    requires n <= |planned|
  {
    && BackedBook(before)
    && cash == before.account.balances.available
    && before.account.balances.available + before.account.balances.reserved
       == b.account.balances.available + b.account.balances.reserved
    && (forall id :: Held(before.positions, id) == Held(b.positions, id))
    && (forall id :: Reserved(before.positions, id) == Reserved(b.positions, id) + Sum(planned[..n], SoldOf(id)))
  }

  lemma IssueReserves(b: Book, before: Book, cash: int, planned: seq<PlannedOrder>, n: nat, o: Order)
    requires n < |planned| && Reserving(b, before, cash, planned, n)
    requires Issue(before, o).Ok?
    requires o.state == Pending && o.side == planned[n].side && o.instrument == planned[n].instrument
    requires o.side == Sell ==> o.reservedCash == 0 && o.reservedQuantity == planned[n].quantity
    ensures Reserving(b, Issue(before, o).value, cash - o.reservedCash, planned, n + 1)
  {
    IssuePosts(before, o);
    var after := Issue(before, o).value;
    hide Issue;
    hide WellFormedReservation;
    forall id
      ensures Held(after.positions, id) == Held(b.positions, id)
      ensures Reserved(after.positions, id) == Reserved(b.positions, id) + Sum(planned[..n + 1], SoldOf(id))
    {
      assert planned[..n + 1] == planned[..n] + [planned[n]];
      SumAppend(planned[..n], planned[n], SoldOf(id));
      SumAppend(before.orders, o, SharesHeld(id));
      assert Reserved(before.positions, id) == Sum(before.orders, SharesHeld(id));
      assert Reserved(after.positions, id) == Sum(after.orders, SharesHeld(id));
      assert Held(before.positions, id) == Held(b.positions, id);
    }
    hide Sum;
    hide BackedBook;
  }

  lemma SoldSoFar(planned: seq<PlannedOrder>, n: nat, id: int)
    requires n < |planned| && forall k :: 0 <= k < |planned| ==> planned[k].quantity > 0
    ensures Sum(planned[..n], SoldOf(id)) + SoldOf(id)(planned[n]) <= Sum(planned, SoldOf(id))
  {
    SumSplit(planned, n, SoldOf(id));
    SumNonNegative(planned[n + 1..], SoldOf(id));
  }

  lemma SkipReserves(b: Book, before: Book, cash: int, planned: seq<PlannedOrder>, n: nat)
    requires n < |planned| && Reserving(b, before, cash, planned, n) && planned[n].side == Buy
    ensures Reserving(b, before, cash, planned, n + 1)
  {
    assert planned[..n + 1] == planned[..n] + [planned[n]];
    forall id
      ensures Sum(planned[..n + 1], SoldOf(id)) == Sum(planned[..n], SoldOf(id))
    {
      SumAppend(planned[..n], planned[n], SoldOf(id));
    }
  }

  /** From a sound book, an order list that is within its budget is accepted order by order: planning can only stop at
      an order whose own size, capacity or price cannot be computed. */
  lemma {:induction false} PlansAreReservable(b: Book, input: PortfolioInput, prices: map<int, int>, s: Snapshot,
                                             target: Session, expiresAt: int, planned: seq<PlannedOrder>, n: nat)
    requires n <= |planned| && BackedBook(b) && b.account.balances.available + b.account.balances.reserved <= MAX_INT64
    requires input.account == b.account && input.positions == b.positions && InBudget(input, prices, planned)
    requires s.asOf < target.openAt < expiresAt
    ensures var r := IssueOrders(b, s, target, expiresAt, planned, n);
      && (r.Ok? ==> Reserving(b, r.value.0, r.value.1, planned, n))
      && (n > 0 && r.Err? ==>
            var before := IssueOrders(b, s, target, expiresAt, planned, n - 1);
            before.Err? || SizeOrder(s, target, expiresAt, planned[n - 1], before.value.1) == Err(r.error))
  {
    hide SizeOrder;
    hide Issue;
    hide InBudget;
    hide Reserving;
    if n == 0 {
      NothingIssued(b, planned);
    } else {
      PlansAreReservable(b, input, prices, s, target, expiresAt, planned, n - 1);
      hide BackedBook;
      var earlier := IssueOrders(b, s, target, expiresAt, planned, n - 1);
      if earlier.Ok? && SizeOrder(s, target, expiresAt, planned[n - 1], earlier.value.1).Ok? {
        NextOrderIsReservable(b, input, prices, s, target, expiresAt, planned, n - 1, earlier.value.0, earlier.value.1);
      }
    }
  }

  lemma NothingIssued(b: Book, planned: seq<PlannedOrder>)
    requires BackedBook(b)
    ensures Reserving(b, b, b.account.balances.available, planned, 0)
  {
    assert planned[..0] == [];
    hide BackedBook;
  }

  lemma NextOrderIsReservable(b: Book, input: PortfolioInput, prices: map<int, int>, s: Snapshot, target: Session,
                              expiresAt: int,
                              planned: seq<PlannedOrder>, n: nat, before: Book, cash: int)
    requires n < |planned| && Reserving(b, before, cash, planned, n)
    requires BackedBook(b) && b.account.balances.available + b.account.balances.reserved <= MAX_INT64
    requires input.account == b.account && input.positions == b.positions && InBudget(input, prices, planned)
    requires s.asOf < target.openAt < expiresAt
    requires SizeOrder(s, target, expiresAt, planned[n], cash).Ok?
    ensures match SizeOrder(s, target, expiresAt, planned[n], cash).value
            case None => Reserving(b, before, cash, planned, n + 1)
            case Some(o) =>
              Issue(before, o).Ok? && Reserving(b, Issue(before, o).value, cash - o.reservedCash, planned, n + 1)
  {
    hide SizeOrder;
    hide Issue;
    assert OrderInBudget(input, prices, planned, n);
    assert cash >= 0;
    hide InBudget;
    hide BackedBook;
    var sized := SizeOrder(s, target, expiresAt, planned[n], cash).value;
    if sized.Some? {
      SizedOrder(s, target, expiresAt, planned[n], cash);
      hide Reserving;
      hide Issued;
      OrderIsReservable(b, input, prices, before, cash, planned, n, sized.value);
      IssueReserves(b, before, cash, planned, n, sized.value);
    } else {
      OnlyBuysAreSkipped(s, target, expiresAt, planned[n], cash);
      SkipReserves(b, before, cash, planned, n);
    }
  }

  lemma OnlyBuysAreSkipped(s: Snapshot, target: Session, expiresAt: int, p: PlannedOrder, cash: int)
    requires SizeOrder(s, target, expiresAt, p, cash) == Ok(None)
    ensures p.side == Buy
  {
  }

  lemma OrderIsReservable(b: Book, input: PortfolioInput, prices: map<int, int>, before: Book, cash: int,
                          planned: seq<PlannedOrder>, n: nat, o: Order)
    requires n < |planned| && Reserving(b, before, cash, planned, n)
    requires b.account.balances.available + b.account.balances.reserved <= MAX_INT64
    requires input.account == b.account && input.positions == b.positions && InBudget(input, prices, planned)
    requires o.account == REPLAY_ACCOUNT && o.state == Pending && 0 < o.quantity <= planned[n].quantity
    requires o.capacity >= 0
    requires o.createdAt < o.targetOpenAt < o.expiresAt && o.side == planned[n].side
    requires o.instrument == planned[n].instrument
    requires o.side == Buy ==> 0 < o.reservedCash <= cash && o.reservedQuantity == 0
    requires o.side == Sell ==> o.reservedCash == 0 && o.reservedQuantity == o.quantity == planned[n].quantity
    ensures Issue(before, o).Ok?
  {
    hide WithinTurnover;
    forall k | 0 <= k < |planned|
      ensures planned[k].quantity > 0 && planned[k].quantity <= MAX_ORDER_QUANTITY
    {
      assert OrderInBudget(input, prices, planned, k);
    }
    SoldSoFar(planned, n, o.instrument);
    assert Held(before.positions, o.instrument) == Held(b.positions, o.instrument);
    assert Reserved(before.positions, o.instrument)
           == Reserved(b.positions, o.instrument) + Sum(planned[..n], SoldOf(o.instrument));
    assert Sum(planned, SoldOf(o.instrument)) <= Held(b.positions, o.instrument) - Reserved(b.positions, o.instrument);
    ReserveSucceeds(before.account, before.positions, o);
    SingleReservation(before.account, before.positions, o);
  }

  lemma SoundRowsAreRows(positions: seq<Position>)
    requires SoundRows(positions)
    ensures Rows(positions)
  {
    forall n | 0 <= n < |positions|
      ensures Row(positions[n])
    {
      assert SoundRow(positions[n]);
    }
  }

  lemma NothingReserved(orders: seq<Order>)
    requires !Unresolved(orders)
    ensures Sum(orders, CashHeld()) == 0
  {
    forall o | o in orders
      ensures CashHeld()(o) == 0
    {
      var n :| 0 <= n < |orders| && orders[n] == o;
    }
    SumIsZero(orders, CashHeld());
  }

  /** Whatever the market data and the scoring, a plan built from a sound book with no open orders is reservable. */
  lemma RebalancePlansAreReservable(b: Book, s: Snapshot, input: PortfolioInput, target: Session, expiresAt: int,
                                    n: nat)
    requires BackedBook(b) && !Unresolved(b.orders) && input.account == b.account && input.positions == b.positions
    requires s.asOf < target.openAt < expiresAt
    requires BuildRebalance(input).Ok? && 0 < n <= |BuildRebalance(input).value.orders|
    ensures var planned := BuildRebalance(input).value.orders;
      var before := IssueOrders(b, s, target, expiresAt, planned, n - 1);
      before.Ok? && SizeOrder(s, target, expiresAt, planned[n - 1], before.value.1).Ok?
      ==> IssueOrders(b, s, target, expiresAt, planned, n).Ok?
  {
    SoundRowsAreRows(b.positions);
    NothingReserved(b.orders);
    PlanIsInBudget(input);
    var planned := BuildRebalance(input).value.orders;
    var prices := Quotes(input.snapshot, input.prices).value;
    hide BuildRebalance;
    hide IssueOrders;
    hide SizeOrder;
    PlansAreReservable(b, input, prices, s, target, expiresAt, planned, n);
  }
}
