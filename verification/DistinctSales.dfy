// Sales and the sells they come from: under every number a book records as many sales as it has filled sells.
module DistinctSales {
  import opened Outcomes
  import opened Money
  import opened Domain
  import opened Calendars
  import opened Lists
  import opened Sums
  import opened Ledger
  import opened Reservations
  import opened Snapshots
  import opened Risk
  import opened Rebalance
  import opened Execution
  import opened Replay
  import opened BookEvents
  import opened BookMeaning
  import opened SharedNumbers
  import opened Volumes
  import opened RepeatedSells

  // ---------- Counting ----------

  function SalesUnder(k: EventKey): LedgerEntry -> int {
    (e: LedgerEntry) => if e.kind == SellFill && e.key == k then 1 else 0
  }

  predicate IsFilledSell(o: Order) {
    o.side == Sell && (o.state == Filled || o.state == PartiallyFilled)
  }

  function FilledSells(id: OrderId): Order -> int {
    (o: Order) => if IsFilledSell(o) && o.id == id then 1 else 0
  }

  predicate NotSales(entries: seq<LedgerEntry>) {
    forall i :: 0 <= i < |entries| ==> entries[i].kind != SellFill
  }

  /** Sales are recorded under the numbers of orders, and under each number as many as it has filled sells. */
  ghost predicate SalesMatch(b: Book) {
    && (forall i :: 0 <= i < |b.ledger| && b.ledger[i].kind == SellFill ==> b.ledger[i].key.FillKey?)
    && (forall id :: Sum(b.ledger, SalesUnder(FillKey(id))) == Sum(b.orders, FilledSells(id)))
  }

  /** Entries that are not sales are recorded, and no order becomes a filled sell. */
  ghost predicate NoSale(b: Book, after: Book) {
    && |b.ledger| <= |after.ledger| && after.ledger[..|b.ledger|] == b.ledger && NotSales(after.ledger[|b.ledger|..])
    && (forall id :: Sum(after.orders, FilledSells(id)) == Sum(b.orders, FilledSells(id)))
  }

  lemma NoSaleKeepsMatch(b: Book, after: Book)
    requires SalesMatch(b) && NoSale(b, after)
    ensures SalesMatch(after)
  {
    var added := after.ledger[|b.ledger|..];
    assert after.ledger == b.ledger + added;
    forall i | |b.ledger| <= i < |after.ledger|
      ensures after.ledger[i].kind != SellFill
    {
      assert after.ledger[i] == added[i - |b.ledger|];
    }
    assert forall i :: 0 <= i < |b.ledger| ==> after.ledger[i] == b.ledger[i];
    forall id: OrderId
      ensures Sum(after.ledger, SalesUnder(FillKey(id))) == Sum(b.ledger, SalesUnder(FillKey(id)))
    {
      SumConcat(b.ledger, added, SalesUnder(FillKey(id)));
      SumIsZero(added, SalesUnder(FillKey(id)));
    }
  }

  lemma NoSaleIsTransitive(a: Book, b: Book, c: Book)
    requires NoSale(a, b) && NoSale(b, c)
    ensures NoSale(a, c)
  {
    assert c.ledger[..|a.ledger|] == c.ledger[..|b.ledger|][..|a.ledger|];
    forall i | |a.ledger| <= i < |c.ledger|
      ensures c.ledger[i].kind != SellFill
    {
      if i < |b.ledger| {
        assert c.ledger[i] == c.ledger[..|b.ledger|][i] == b.ledger[|a.ledger|..][i - |a.ledger|];
      } else {
        assert c.ledger[i] == c.ledger[|b.ledger|..][i - |b.ledger|];
      }
    }
    hide Sum;
  }

  // ---------- Events ----------

  /** One order changes its state and entries are recorded. */
  ghost predicate Changes(b: Book, after: Book, n: nat, entries: seq<LedgerEntry>)
    requires n < |b.orders|
  {
    && after.ledger == b.ledger + entries && |after.orders| == |b.orders|
    && after.orders == b.orders[n := after.orders[n]] && SameTerms(b.orders[n], after.orders[n])
  }

  lemma ChangeWithoutSale(b: Book, after: Book, n: nat, entries: seq<LedgerEntry>)
    requires n < |b.orders| && Changes(b, after, n, entries) && NotSales(entries)
    requires !IsFilledSell(b.orders[n]) && !IsFilledSell(after.orders[n])
    ensures NoSale(b, after)
  {
    forall id
      ensures Sum(after.orders, FilledSells(id)) == Sum(b.orders, FilledSells(id))
    {
      SumUpdate(b.orders, n, after.orders[n], FilledSells(id));
    }
    assert after.ledger[|b.ledger|..] == entries;
  }

  lemma CloseIsNoSale(b: Book, n: nat, why: Reason, state: OrderState, now: int)
    requires n < |b.orders| && CloseUnfilled(b, n, why, state, now).Ok? && state != Filled && state != PartiallyFilled
    ensures NoSale(b, CloseUnfilled(b, n, why, state, now).value)
  {
    hide ReleaseShares;
    hide ApplyDelta;
    ChangeWithoutSale(b, CloseUnfilled(b, n, why, state, now).value, n,
                      ReleaseOrder(b.account, b.positions, b.orders[n], why, now).value.entries);
  }

  lemma AdvanceIsNoSale(b: Book, n: nat, now: int)
    requires n < |b.orders|
    ensures NoSale(b, Advance(b, n, now))
  {
    assert b.ledger + [] == b.ledger;
    if b.orders[n].Terminal() {
      assert Advance(b, n, now).orders == b.orders;
      assert b.ledger[|b.ledger|..] == [];
    } else {
      ChangeWithoutSale(b, Advance(b, n, now), n, []);
    }
  }

  lemma FillChanges(b: Book, n: nat, fill: Fill, partial: bool) returns (e: LedgerEntry)
    requires n < |b.orders| && CloseFilled(b, n, fill, partial).Ok?
    ensures var after := CloseFilled(b, n, fill, partial).value;
      && Changes(b, after, n, [e]) && (after.orders[n].state == Filled || after.orders[n].state == PartiallyFilled)
      && e.key == FillKey(fill.orderId) && (e.kind == SellFill <==> fill.side == Sell)
      && after.settled == b.settled
  {
    hide FillEffect;
    hide ApplyDelta;
    hide SortPositions;
    hide IndexOf;
    hide Occurrences;
    hide WellFormedFill;
    var after := CloseFilled(b, n, fill, partial).value;
    e := after.ledger[|after.ledger| - 1];
  }

  /** Filling an open sell records one sale under its number; filling a buy records none. */
  lemma FillMatches(b: Book, n: nat, fill: Fill, partial: bool)
    requires SalesMatch(b) && n < |b.orders| && !b.orders[n].Terminal() && Closes(fill, b.orders[n])
    requires CloseFilled(b, n, fill, partial).Ok?
    ensures SalesMatch(CloseFilled(b, n, fill, partial).value)
  {
    hide CloseFilled;
    var after := CloseFilled(b, n, fill, partial).value;
    var e := FillChanges(b, n, fill, partial);
    forall id: OrderId
      ensures Sum(after.ledger, SalesUnder(FillKey(id))) == Sum(after.orders, FilledSells(id))
    {
      SumAppend(b.ledger, e, SalesUnder(FillKey(id)));
      SumUpdate(b.orders, n, after.orders[n], FilledSells(id));
    }
  }

  // ---------- Reconciliation ----------

  lemma {:induction false} SettlementsAreNotSales(account: Account, sales: seq<LedgerEntry>, calendar: Calendar,
                                                  now: int)
    requires SettleReceivables(account, sales, calendar, now).Ok?
    ensures NotSales(SettleReceivables(account, sales, calendar, now).value.entries)
  {
    hide SettlementStart;
    hide ApplyDelta;
    if sales != [] {
      SettlementsAreNotSales(account, sales[..|sales| - 1], calendar, now);
    }
  }

  lemma EntriesAreNoSale(b: Book, after: Book, entries: seq<LedgerEntry>)
    requires after.orders == b.orders && after.ledger == b.ledger + entries && NotSales(entries)
    ensures NoSale(b, after)
  {
    assert after.ledger[|b.ledger|..] == entries;
  }

  lemma {:induction false} CancelIsNoSale(b: Book, a: CorporateAction, n: nat, now: int)
    requires n <= |b.orders| && CancelForSplit(b, a, n, now).Ok?
    ensures NoSale(b, CancelForSplit(b, a, n, now).value)
  {
    hide CloseUnfilled;
    hide NoSale;
    if n == 0 {
      EntriesAreNoSale(b, b, []);
    } else {
      CancelIsNoSale(b, a, n - 1, now);
      var before := CancelForSplit(b, a, n - 1, now).value;
      if CancelledBySplit(before.orders[n - 1], a) {
        CloseIsNoSale(before, n - 1, SplitCancel, Cancelled, now);
        NoSaleIsTransitive(b, before, CancelForSplit(b, a, n, now).value);
      }
    }
  }

  lemma ActionIsNoSale(b: Book, a: CorporateAction)
    requires ApplyAction(b, a).Ok?
    ensures NoSale(b, ApplyAction(b, a).value)
  {
    hide ApplySplit;
    hide EligibleQuantity;
    hide Eligibility;
    hide GrossValue;
    hide ApplyDelta;
    var m := ApplyCorporateAction(b.account, b.positions, a, Eligibility(b.ledger, a)).value;
    EntriesAreNoSale(b, ApplyAction(b, a).value, m.entries);
  }

  lemma PaymentIsNoSale(b: Book, a: CorporateAction, now: int)
    requires PayAction(b, a, now).Ok?
    ensures NoSale(b, PayAction(b, a, now).value)
  {
    hide FirstWithKey;
    hide ApplyDelta;
    var accrual := FirstWithKey(b.ledger, ActionKey(a.id)).value;
    EntriesAreNoSale(b, PayAction(b, a, now).value, PayDividend(b.account, a, accrual, now).value.entries);
  }

  lemma ReconcileActionIsNoSale(b: Book, a: CorporateAction, now: int, relevant: set<int>)
    requires ReconcileAction(b, a, now, relevant).Ok?
    ensures NoSale(b, ReconcileAction(b, a, now, relevant).value)
  {
    hide CancelForSplit;
    hide ApplyAction;
    hide PayAction;
    hide NoSale;
    EntriesAreNoSale(b, b, []);
    if a.instrument in relevant && a.effectiveAt <= now {
      var ready := if a.kind == Split then CancelForSplit(b, a, |b.orders|, now) else Ok(b);
      if a.id !in b.applied {
        if a.kind == Split {
          CancelIsNoSale(b, a, |b.orders|, now);
        }
        ActionIsNoSale(ready.value, a);
        NoSaleIsTransitive(b, ready.value, ApplyAction(ready.value, a).value);
      }
      var taken := if a.id in b.applied then b else ApplyAction(ready.value, a).value;
      if PayAction(taken, a, now).Ok? {
        PaymentIsNoSale(taken, a, now);
        NoSaleIsTransitive(b, taken, PayAction(taken, a, now).value);
      }
    }
  }

  lemma {:induction false} ReconcileActionsAreNoSale(b: Book, actions: seq<CorporateAction>, n: nat, now: int,
                                                     relevant: set<int>)
    requires n <= |actions| && ReconcileActions(b, actions, n, now, relevant).Ok?
    ensures NoSale(b, ReconcileActions(b, actions, n, now, relevant).value)
  {
    hide ReconcileAction;
    hide NoSale;
    if n == 0 {
      EntriesAreNoSale(b, b, []);
    } else {
      ReconcileActionsAreNoSale(b, actions, n - 1, now, relevant);
      var before := ReconcileActions(b, actions, n - 1, now, relevant).value;
      ReconcileActionIsNoSale(before, actions[n - 1], now, relevant);
      NoSaleIsTransitive(b, before, ReconcileActions(b, actions, n, now, relevant).value);
    }
  }

  lemma ReconcileKeepsMatch(b: Book, s: Snapshot, now: int, relevant: set<int>)
    requires SalesMatch(b) && Reconcile(b, s, now, relevant).Ok?
    ensures SalesMatch(Reconcile(b, s, now, relevant).value)
    ensures NoSale(b, Reconcile(b, s, now, relevant).value)
  {
    hide SalesMatch;
    hide NoSale;
    hide ReconcileActions;
    hide SettleReceivables;
    hide Sort;
    var settled, actions := Settle(b, s.calendar, now).value, Sort(s.actions, ByEffect());
    SettlementsAreNotSales(b.account, Sales(b), s.calendar, now);
    EntriesAreNoSale(b, settled, SettleReceivables(b.account, Sales(b), s.calendar, now).value.entries);
    ReconcileActionsAreNoSale(settled, actions, |actions|, now, relevant);
    NoSaleIsTransitive(b, settled, Reconcile(b, s, now, relevant).value);
    NoSaleKeepsMatch(b, Reconcile(b, s, now, relevant).value);
  }

  // ---------- Planning ----------

  lemma IssueIsNoSale(b: Book, o: Order)
    requires Issue(b, o).Ok? && !IsFilledSell(o)
    ensures NoSale(b, Issue(b, o).value)
  {
    SingleReservation(b.account, b.positions, o);
    hide ReserveOrders;
    hide ReserveShares;
    hide ApplyDelta;
    hide WellFormedReservation;
    var after := Issue(b, o).value;
    forall id
      ensures Sum(after.orders, FilledSells(id)) == Sum(b.orders, FilledSells(id))
    {
      SumAppend(b.orders, o, FilledSells(id));
    }
    assert after.ledger[|b.ledger|..] == ReserveOne(b.account, b.positions, o).value.entries;
  }

  lemma SizedIsOpen(s: Snapshot, target: Session, expiresAt: int, p: PlannedOrder, cash: int)
    requires SizeOrder(s, target, expiresAt, p, cash).Ok? && SizeOrder(s, target, expiresAt, p, cash).value.Some?
    ensures var o := SizeOrder(s, target, expiresAt, p, cash).value.value;
      o.state == Pending && o.side == p.side && o.id == ReplayId(target.date, p.instrument, p.side)
        && o.instrument == p.instrument
  {
    hide PreviousVolumeCapacity;
    hide ReservationCost;
  }

  lemma {:induction false} IssuesAreNoSale(b: Book, s: Snapshot, target: Session, expiresAt: int,
                                           planned: seq<PlannedOrder>, n: nat)
    requires n <= |planned| && IssueOrders(b, s, target, expiresAt, planned, n).Ok?
    ensures NoSale(b, IssueOrders(b, s, target, expiresAt, planned, n).value.0)
  {
    hide SizeOrder;
    hide Issue;
    hide NoSale;
    if n == 0 {
      EntriesAreNoSale(b, b, []);
    } else {
      IssuesAreNoSale(b, s, target, expiresAt, planned, n - 1);
      var (before, cash) := IssueOrders(b, s, target, expiresAt, planned, n - 1).value;
      var sized := SizeOrder(s, target, expiresAt, planned[n - 1], cash).value;
      if sized.Some? {
        SizedIsOpen(s, target, expiresAt, planned[n - 1], cash);
        IssueIsNoSale(before, sized.value);
        NoSaleIsTransitive(b, before, Issue(before, sized.value).value);
      }
    }
  }

  lemma PlanIsNoSale(b: Book, s: Snapshot, input: ReplayInput, target: Session)
    requires PlanSession(b, s, input, target).Ok?
    ensures NoSale(b, PlanSession(b, s, input, target).value)
  {
    hide BuildRebalance;
    hide ComputeNAV;
    hide EvaluationOf;
    hide IssueOrders;
    hide NextSession;
    EntriesAreNoSale(b, PlanSession(b, s, input, target).value.(orders := b.orders, ledger := b.ledger), []);
    if b.account.automationEnabled && !Unresolved(b.orders) {
      var nav := ComputeNAV(b.account, b.positions, s, map[]).value;
      var plan := BuildRebalance(PlanInput(b, s, input, EvaluationOf(input, s).value, nav)).value;
      if !plan.pause {
        IssuesAreNoSale(b, s, target, NextSession(s.calendar, target.closeAt).value.closeAt, plan.orders,
                        |plan.orders|);
      }
    }
  }

  // ---------- Execution ----------

  lemma ExecuteOrderMatches(b: Book, source: Snapshot, current: Snapshot, n: nat, now: int)
    requires n < |b.orders| && SalesMatch(b) && ExecuteOrder(b, source, current, n, now).Ok?
    ensures SalesMatch(ExecuteOrder(b, source, current, n, now).value)
  {
    hide SalesMatch;
    hide NoSale;
    hide SelectSnapshot;
    hide HasOpening;
    hide CloseUnfilled;
    hide CloseFilled;
    hide OpeningMatch;
    hide OpeningPrices;
    hide BarsOn;
    hide Sum;
    if !b.orders[n].Terminal() && now >= b.orders[n].targetOpenAt {
      var advanced := Advance(b, n, now);
      var o := advanced.orders[n];
      AdvanceIsNoSale(b, n, now);
      NoSaleKeepsMatch(b, advanced);
      if !HasOpening(current, o) {
        if now >= o.expiresAt {
          CloseIsNoSale(advanced, n, DataUnavailable, Expired, now);
          NoSaleKeepsMatch(advanced, CloseUnfilled(advanced, n, DataUnavailable, Expired, now).value);
        }
      } else {
        OpenedOrderMatches(advanced, source, current, n, now);
      }
    }
  }

  lemma OpenedOrderMatches(b: Book, source: Snapshot, current: Snapshot, n: nat, now: int)
    requires n < |b.orders| && SalesMatch(b) && !b.orders[n].Terminal() && now >= b.orders[n].targetOpenAt
    requires Advance(b, n, now) == b && HasOpening(current, b.orders[n]) && ExecuteOrder(b, source, current, n, now).Ok?
    ensures SalesMatch(ExecuteOrder(b, source, current, n, now).value)
  {
    hide SalesMatch;
    hide NoSale;
    hide SelectSnapshot;
    hide CloseUnfilled;
    hide CloseFilled;
    hide OpeningMatch;
    hide OpeningPrices;
    hide Advance;
    hide Sum;
    var o, date := b.orders[n], DateOf(b.orders[n].targetOpenAt);
    var prior, prices := SelectSnapshot(source, o.targetOpenAt - 1), OpeningPrices(current.bars, date);
    var open := BarsOn(current.bars, date)[o.instrument].open;
    hide HasOpening;
    hide BarsOn;
    var used, turnover := Sum(b.fills, SharesFilled(o.targetOpenAt, o.instrument)),
                          Sum(b.fills, GrossFilled(o.targetOpenAt));
    var matched := OpeningMatch(b, o, prior, prices, open, used, turnover, now).value;
    if matched.fill.Some? {
      OpeningFillCloses(b, o, prior, prices, open, used, turnover, now);
      FillMatches(b, n, matched.fill.value, matched.cancelledQuantity > 0);
    } else {
      CloseIsNoSale(b, n, Unmatched, Rejected, now);
      NoSaleKeepsMatch(b, CloseUnfilled(b, n, Unmatched, Rejected, now).value);
    }
  }

  lemma {:induction false} ExecuteOrdersMatch(b: Book, source: Snapshot, current: Snapshot, n: nat, now: int)
    requires n <= |b.orders| && SalesMatch(b) && ExecuteOrders(b, source, current, n, now).Ok?
    ensures SalesMatch(ExecuteOrders(b, source, current, n, now).value)
  {
    hide SalesMatch;
    hide ExecuteOrder;
    if n > 0 {
      ExecuteOrdersMatch(b, source, current, n - 1, now);
      ExecuteOrderMatches(ExecuteOrders(b, source, current, n - 1, now).value, source, current, n - 1, now);
    }
  }

  lemma SortedMatches(b: Book)
    requires SalesMatch(b)
    ensures SalesMatch(b.(orders := Sort(b.orders, ByOpening())))
  {
    SortPermutes(b.orders, ByOpening());
    forall id
      ensures Sum(Sort(b.orders, ByOpening()), FilledSells(id)) == Sum(b.orders, FilledSells(id))
    {
      SumPermuted(Sort(b.orders, ByOpening()), b.orders, FilledSells(id));
    }
  }

  lemma ExecuteMatches(b: Book, source: Snapshot, current: Snapshot, now: int)
    requires SalesMatch(b) && Execute(b, source, current, now).Ok?
    ensures SalesMatch(Execute(b, source, current, now).value)
  {
    SortedMatches(b);
    hide SalesMatch;
    hide Sort;
    hide ExecuteOrders;
    var sorted := b.(orders := Sort(b.orders, ByOpening()));
    ExecuteOrdersMatch(sorted, source, current, |sorted.orders|, now);
  }

  // ---------- When sales share a number ----------

  lemma {:induction false} DistinctCounts(sales: seq<LedgerEntry>, k: EventKey)
    requires DistinctKeys(sales)
    ensures 0 <= Sum(sales, SalesUnder(k)) <= 1
    ensures Sum(sales, SalesUnder(k)) == 1 ==> exists i :: 0 <= i < |sales| && sales[i].key == k
  {
    if sales != [] {
      var init, last := sales[..|sales| - 1], sales[|sales| - 1];
      DistinctCounts(init, k);
      if Sum(init, SalesUnder(k)) == 1 {
        var i :| 0 <= i < |init| && init[i].key == k;
        assert sales[i].key == k && last.key != k;
      } else if last.key == k {
        assert sales[|sales| - 1].key == k;
      }
    }
  }

  lemma TwoCounted(sales: seq<LedgerEntry>, i: nat, j: nat)
    requires i < j < |sales| && sales[i].key == sales[j].key && sales[i].kind == SellFill && sales[j].kind == SellFill
    ensures Sum(sales, SalesUnder(sales[i].key)) >= 2
  {
    var f := SalesUnder(sales[i].key);
    SumSplit(sales, i, f);
    SumNonNegative(sales[..i], f);
    TermWithinSum(sales[i + 1..], j - i - 1, f);
  }

  /** The sales awaiting settlement under a number are all its sales, unless the number has been settled. */
  lemma AwaitingUnder(b: Book, k: EventKey)
    ensures Sum(Sales(b), SalesUnder(k)) == if k in b.settled then 0 else Sum(b.ledger, SalesUnder(k))
  {
    SumOfFiltered(b.ledger, AwaitingSettlement(b.settled), SalesUnder(k));
    var f := Where(AwaitingSettlement(b.settled), SalesUnder(k));
    if k in b.settled {
      SumIsZero(b.ledger, f);
    } else {
      SameSum(b.ledger, f, SalesUnder(k));
    }
  }

  /** The numbers waiting for settlement that more than one sell has been filled under. */
  ghost predicate FilledOnce(b: Book) {
    forall id :: FillKey(id) !in b.settled ==> Sum(b.orders, FilledSells(id)) <= 1
  }

  /** The sales a book has still to settle share no number if and only if no two sells have been filled under one. */
  lemma DistinctIffFilledOnce(b: Book)
    requires SalesMatch(b)
    ensures DistinctKeys(Sales(b)) <==> FilledOnce(b)
  {
    if DistinctKeys(Sales(b)) {
      forall id: OrderId | FillKey(id) !in b.settled
        ensures Sum(b.orders, FilledSells(id)) <= 1
      {
        AwaitingUnder(b, FillKey(id));
        DistinctCounts(Sales(b), FillKey(id));
      }
    } else {
      var i, j :| 0 <= i < j < |Sales(b)| && Sales(b)[i].key == Sales(b)[j].key;
      var e, k := Sales(b)[i], Sales(b)[i].key;
      FilterKeeps(b.ledger, AwaitingSettlement(b.settled), e);
      FilterKeeps(b.ledger, AwaitingSettlement(b.settled), Sales(b)[j]);
      assert e in Sales(b) && Sales(b)[j] in Sales(b);
      TwoCounted(Sales(b), i, j);
      AwaitingUnder(b, k);
      var n :| 0 <= n < |b.ledger| && b.ledger[n] == e;
      assert b.ledger[n].key.FillKey?;
      assert Sum(b.orders, FilledSells(k.order)) >= 2 && FillKey(k.order) == k;
    }
  }

  /** Two sells filled under one number that has not been settled: no reconciliation accepts the book again. */
  lemma FilledTwiceIsStuck(b: Book, m: nat, n: nat, s: Snapshot, now: int, relevant: set<int>)
    requires SalesMatch(b) && m < n < |b.orders| && IsFilledSell(b.orders[m]) && IsFilledSell(b.orders[n])
    requires b.orders[m].id == b.orders[n].id && FillKey(b.orders[m].id) !in b.settled
    ensures !DistinctKeys(Sales(b)) && Reconcile(b, s, now, relevant).Err?
  {
    var f := FilledSells(b.orders[m].id);
    SumSplit(b.orders, m, f);
    SumNonNegative(b.orders[..m], f);
    TermWithinSum(b.orders[m + 1..], n - m - 1, f);
    DistinctIffFilledOnce(b);
    StuckBookNeverReconciles(b, s, now, relevant);
    hide Reconcile;
    hide Sales;
  }

  // ---------- Plans ----------

  function SellsUnder(id: OrderId): Order -> int {
    (o: Order) => if o.side == Sell && o.id == id then 1 else 0
  }

  /** Each number has one sell at most, and numbers are of days up to a date. */
  ghost predicate SoldOnce(b: Book, date: int) {
    && (forall id :: Sum(b.orders, SellsUnder(id)) <= 1)
    && (forall n :: 0 <= n < |b.orders| ==> b.orders[n].id.ReplayId? && b.orders[n].id.day <= date)
  }

  lemma {:induction false} SameTermsSums(orders: seq<Order>, after: seq<Order>, id: OrderId)
    requires |after| == |orders| && forall n :: 0 <= n < |orders| ==> SameTerms(orders[n], after[n])
    ensures Sum(after, SellsUnder(id)) == Sum(orders, SellsUnder(id))
  {
    if orders != [] {
      SameTermsSums(orders[..|orders| - 1], after[..|after| - 1], id);
      assert SameTerms(orders[|orders| - 1], after[|after| - 1]);
    }
  }

  lemma TermsKeepSoldOnce(b: Book, after: Book, date: int)
    requires SoldOnce(b, date) && SameTermsAll(b, after)
    ensures SoldOnce(after, date)
  {
    forall id
      ensures Sum(after.orders, SellsUnder(id)) <= 1
    {
      SameTermsSums(b.orders, after.orders, id);
    }
    forall n | 0 <= n < |after.orders|
      ensures after.orders[n].id.ReplayId? && after.orders[n].id.day <= date
    {
      assert SameTerms(b.orders[n], after.orders[n]);
    }
  }

  lemma OnceImpliesFilledOnce(b: Book, date: int)
    requires SoldOnce(b, date)
    ensures FilledOnce(b)
  {
    forall id
      ensures Sum(b.orders, FilledSells(id)) <= 1
    {
      SumMonotone(b.orders, FilledSells(id), SellsUnder(id));
    }
  }

  /** What a plan asks for, or nothing when the session plans nothing. */
  function PlannedTrades(b: Book, s: Snapshot, input: ReplayInput): seq<PlannedOrder> {
    if !b.account.automationEnabled || Unresolved(b.orders) then []
    else
      var evaluation, nav := EvaluationOf(input, s), ComputeNAV(b.account, b.positions, s, map[]);
      if evaluation.Err? || nav.Err? then []
      else
        var plan := BuildRebalance(PlanInput(b, s, input, evaluation.value, nav.value));
        if plan.Err? || plan.value.pause then [] else plan.value.orders
  }

  ghost predicate SellsOnce(planned: seq<PlannedOrder>) {
    forall id :: Sum(planned, SellsOf(id)) <= 1
  }

  /** Every planned sell is issued, under the number of its name and its session. */
  ghost predicate IssuedUnder(b: Book, after: Book, date: int, planned: seq<PlannedOrder>) {
    && (forall id: OrderId :: Sum(after.orders, SellsUnder(id)) == Sum(b.orders, SellsUnder(id))
          + if id.ReplayId? && id.day == date && id.side == Sell then Sum(planned, SellsOf(id.instrument)) else 0)
    && |after.orders| >= |b.orders| && after.orders[..|b.orders|] == b.orders
    && (forall n :: |b.orders| <= n < |after.orders| ==> after.orders[n].id.ReplayId? && after.orders[n].id.day == date)
  }

  lemma IssueOne(b: Book, before: Book, date: int, planned: seq<PlannedOrder>, p: PlannedOrder, o: Order)
    requires IssuedUnder(b, before, date, planned)
    requires o.side == p.side && o.id == ReplayId(date, p.instrument, p.side)
    ensures IssuedUnder(b, before.(orders := before.orders + [o]), date, planned + [p])
  {
    var after := before.(orders := before.orders + [o]);
    forall id: OrderId
      ensures Sum(after.orders, SellsUnder(id)) == Sum(b.orders, SellsUnder(id))
        + if id.ReplayId? && id.day == date && id.side == Sell then Sum(planned + [p], SellsOf(id.instrument)) else 0
    {
      SumAppend(before.orders, o, SellsUnder(id));
      if id.ReplayId? {
        SumAppend(planned, p, SellsOf(id.instrument));
      }
    }
    hide Sum;
    assert after.orders[..|b.orders|] == before.orders[..|b.orders|];
  }

  lemma SkipOne(b: Book, before: Book, date: int, planned: seq<PlannedOrder>, p: PlannedOrder)
    requires IssuedUnder(b, before, date, planned) && p.side == Buy
    ensures IssuedUnder(b, before, date, planned + [p])
  {
    forall id: int
      ensures Sum(planned + [p], SellsOf(id)) == Sum(planned, SellsOf(id))
    {
      SumAppend(planned, p, SellsOf(id));
    }
    hide Sum;
  }

  lemma SkippedIsBuy(s: Snapshot, target: Session, expiresAt: int, p: PlannedOrder, cash: int)
    requires SizeOrder(s, target, expiresAt, p, cash) == Ok(None)
    ensures p.side == Buy
  {
    hide PreviousVolumeCapacity;
    hide ReservationCost;
  }

  lemma {:induction false} IssuesUnder(b: Book, s: Snapshot, target: Session, expiresAt: int,
                                       planned: seq<PlannedOrder>, n: nat)
    requires n <= |planned| && IssueOrders(b, s, target, expiresAt, planned, n).Ok?
    ensures IssuedUnder(b, IssueOrders(b, s, target, expiresAt, planned, n).value.0, target.date, planned[..n])
  {
    hide SizeOrder;
    hide ReserveOrders;
    hide IssuedUnder;
    if n == 0 {
      NothingIssuedUnder(b, target.date);
      assert planned[..0] == [];
    } else {
      IssuesUnder(b, s, target, expiresAt, planned, n - 1);
      var (before, cash) := IssueOrders(b, s, target, expiresAt, planned, n - 1).value;
      var p := planned[n - 1];
      assert planned[..n] == planned[..n - 1] + [p];
      var sized := SizeOrder(s, target, expiresAt, p, cash).value;
      if sized.Some? {
        SizedIsOpen(s, target, expiresAt, p, cash);
        IssueOne(b, before, target.date, planned[..n - 1], p, sized.value);
        SameOrdersIssued(b, before.(orders := before.orders + [sized.value]), Issue(before, sized.value).value,
                         target.date, planned[..n]);
      } else {
        SkippedIsBuy(s, target, expiresAt, p, cash);
        SkipOne(b, before, target.date, planned[..n - 1], p);
      }
    }
  }

  lemma NothingIssuedUnder(b: Book, date: int)
    ensures IssuedUnder(b, b, date, [])
  {
  }

  lemma SameOrdersIssued(b: Book, after: Book, other: Book, date: int, planned: seq<PlannedOrder>)
    requires IssuedUnder(b, after, date, planned) && other.orders == after.orders
    ensures IssuedUnder(b, other, date, planned)
  {
    hide Sum;
  }

  lemma IssuedKeepsSoldOnce(b: Book, after: Book, early: int, date: int, planned: seq<PlannedOrder>)
    requires SoldOnce(b, early) && early < date && IssuedUnder(b, after, date, planned) && SellsOnce(planned)
    ensures SoldOnce(after, date)
  {
    forall id: OrderId
      ensures Sum(after.orders, SellsUnder(id)) <= 1
    {
      if id.ReplayId? && id.day == date {
        SumIsZero(b.orders, SellsUnder(id));
      }
    }
    hide Sum;
    forall n | 0 <= n < |after.orders|
      ensures after.orders[n].id.ReplayId? && after.orders[n].id.day <= date
    {
      if n < |b.orders| {
        assert after.orders[n] == after.orders[..|b.orders|][n] == b.orders[n];
      }
    }
  }

  lemma PlanKeepsSoldOnce(b: Book, s: Snapshot, input: ReplayInput, target: Session, early: int)
    requires SoldOnce(b, early) && early < target.date && PlanSession(b, s, input, target).Ok?
    requires SellsOnce(PlannedTrades(b, s, input))
    ensures SoldOnce(PlanSession(b, s, input, target).value, target.date)
  {
    hide BuildRebalance;
    hide ComputeNAV;
    hide EvaluationOf;
    hide IssueOrders;
    hide NextSession;
    hide SellsOnce;
    hide Sum;
    if b.account.automationEnabled && !Unresolved(b.orders) {
      var nav := ComputeNAV(b.account, b.positions, s, map[]).value;
      var plan := BuildRebalance(PlanInput(b, s, input, EvaluationOf(input, s).value, nav)).value;
      if !plan.pause {
        var expiresAt := NextSession(s.calendar, target.closeAt).value.closeAt;
        IssuesUnder(b, s, target, expiresAt, plan.orders, |plan.orders|);
        assert plan.orders[..|plan.orders|] == plan.orders;
        IssuedKeepsSoldOnce(b, PlanSession(b, s, input, target).value, early, target.date, plan.orders);
      }
    }
  }
}
