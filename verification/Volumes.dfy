/** Every fill of a replay is of an order whose capacity was computed from the volume known when it was decided. */
module Volumes {
  import opened Outcomes
  import opened Money
  import opened Sizing
  import opened Domain
  import opened Calendars
  import opened Lists
  import opened Sums
  import opened Ledger
  import opened Reservations
  import opened Snapshots
  import opened Risk
  import opened Rebalance
  import opened Execution
  import opened Replay
  import opened BookEvents
  import opened Planning
  import opened Running

  /** The bars of an order's instrument that were known when the order was decided. */
  function KnownBarsOf(source: Snapshot, o: Order): seq<Bar> {
    Filter(SelectSnapshot(source, o.createdAt).bars, OfInstrument(o.instrument))
  }

  predicate FromVolume(source: Snapshot, o: Order) {
    PreviousVolumeCapacity(KnownBarsOf(source, o), o.targetOpenAt) == Ok(o.capacity)
  }

  predicate Ordered(orders: seq<Order>, f: Fill) {
    exists n :: 0 <= n < |orders| && orders[n].targetOpenAt == f.effectiveAt && orders[n].instrument == f.instrument
  }

  predicate VolumeSized(b: Book, source: Snapshot) {
    && (forall n :: 0 <= n < |b.orders| ==> FromVolume(source, b.orders[n]))
    && (forall k :: 0 <= k < |b.fills| ==> Ordered(b.orders, b.fills[k]))
  }

  /** The orders keep their terms, whatever happens to their states. */
  predicate SameTermsAll(b: Book, after: Book) {
    |after.orders| == |b.orders| && forall n :: 0 <= n < |b.orders| ==> SameTerms(b.orders[n], after.orders[n])
  }

  lemma TermsKeepVolume(b: Book, after: Book, source: Snapshot)
    requires VolumeSized(b, source) && SameTermsAll(b, after)
    requires forall k :: |b.fills| <= k < |after.fills| ==> Ordered(b.orders, after.fills[k])
    requires |b.fills| <= |after.fills| && after.fills[..|b.fills|] == b.fills
    ensures VolumeSized(after, source)
  {
    hide SelectSnapshot;
    hide PreviousVolumeCapacity;
    forall n | 0 <= n < |after.orders|
      ensures FromVolume(source, after.orders[n])
    {
      assert FromVolume(source, b.orders[n]) && SameTerms(b.orders[n], after.orders[n]);
    }
    forall k | 0 <= k < |after.fills|
      ensures Ordered(after.orders, after.fills[k])
    {
      assert k < |b.fills| ==> after.fills[k] == after.fills[..|b.fills|][k];
      assert Ordered(b.orders, after.fills[k]);
      var n :| 0 <= n < |b.orders| && b.orders[n].targetOpenAt == after.fills[k].effectiveAt
               && b.orders[n].instrument == after.fills[k].instrument;
      assert SameTerms(b.orders[n], after.orders[n]);
    }
  }

  // ---------- Reconciliation ----------

  lemma {:induction false} CancelKeepsTerms(b: Book, a: CorporateAction, n: nat, now: int)
    requires n <= |b.orders| && CancelForSplit(b, a, n, now).Ok?
    ensures SameTermsAll(b, CancelForSplit(b, a, n, now).value) && CancelForSplit(b, a, n, now).value.fills == b.fills
  {
    hide ReleaseOrder;
    if n > 0 {
      CancelKeepsTerms(b, a, n - 1, now);
    }
  }

  lemma ActionKeepsTerms(b: Book, a: CorporateAction, now: int, relevant: set<int>)
    requires ReconcileAction(b, a, now, relevant).Ok?
    ensures SameTermsAll(b, ReconcileAction(b, a, now, relevant).value)
    ensures ReconcileAction(b, a, now, relevant).value.fills == b.fills
  {
    hide CancelForSplit;
    hide ApplyCorporateAction;
    hide PayDividend;
    hide FirstWithKey;
    if CancelForSplit(b, a, |b.orders|, now).Ok? {
      CancelKeepsTerms(b, a, |b.orders|, now);
    }
  }

  lemma {:induction false} ActionsKeepTerms(b: Book, actions: seq<CorporateAction>, n: nat, now: int,
                                            relevant: set<int>)
    requires n <= |actions| && ReconcileActions(b, actions, n, now, relevant).Ok?
    ensures SameTermsAll(b, ReconcileActions(b, actions, n, now, relevant).value)
    ensures ReconcileActions(b, actions, n, now, relevant).value.fills == b.fills
  {
    hide ReconcileAction;
    if n > 0 {
      ActionsKeepTerms(b, actions, n - 1, now, relevant);
      ActionKeepsTerms(ReconcileActions(b, actions, n - 1, now, relevant).value, actions[n - 1], now, relevant);
    }
  }

  lemma ReconcileKeepsVolume(b: Book, source: Snapshot, s: Snapshot, now: int, relevant: set<int>)
    requires VolumeSized(b, source) && Reconcile(b, s, now, relevant).Ok?
    ensures VolumeSized(Reconcile(b, s, now, relevant).value, source)
  {
    hide VolumeSized;
    hide ReconcileActions;
    hide Sort;
    hide SettleReceivables;
    var settled := Settle(b, s.calendar, now).value;
    var actions := Sort(s.actions, ByEffect());
    ActionsKeepTerms(settled, actions, |actions|, now, relevant);
    TermsKeepVolume(b, Reconcile(b, s, now, relevant).value, source);
  }

  // ---------- Planning ----------

  lemma OrderFromVolume(source: Snapshot, asOf: int, target: Session, expiresAt: int, p: PlannedOrder, cash: int)
    requires var r := SizeOrder(SelectSnapshot(source, asOf), target, expiresAt, p, cash); r.Ok? && r.value.Some?
    ensures FromVolume(source, SizeOrder(SelectSnapshot(source, asOf), target, expiresAt, p, cash).value.value)
  {
    assert SelectSnapshot(source, asOf).asOf == asOf;
    hide SelectSnapshot;
    hide PreviousVolumeCapacity;
    hide SizeToCash;
    hide ReservationCost;
  }

  lemma AddedFromVolume(b: Book, after: Book, source: Snapshot, o: Order)
    requires VolumeSized(b, source) && FromVolume(source, o) && after.orders == b.orders + [o] && after.fills == b.fills
    ensures VolumeSized(after, source)
  {
    hide FromVolume;
    forall k | 0 <= k < |after.fills|
      ensures Ordered(after.orders, after.fills[k])
    {
      assert Ordered(b.orders, b.fills[k]);
      var n :| 0 <= n < |b.orders| && b.orders[n].targetOpenAt == b.fills[k].effectiveAt
               && b.orders[n].instrument == b.fills[k].instrument;
      assert after.orders[n] == b.orders[n];
    }
  }

  lemma {:induction false} IssueKeepsVolume(b: Book, source: Snapshot, asOf: int, target: Session, expiresAt: int,
                                          planned: seq<PlannedOrder>, n: nat)
    requires n <= |planned| && VolumeSized(b, source)
    requires IssueOrders(b, SelectSnapshot(source, asOf), target, expiresAt, planned, n).Ok?
    ensures VolumeSized(IssueOrders(b, SelectSnapshot(source, asOf), target, expiresAt, planned, n).value.0, source)
  {
    hide VolumeSized;
    hide SizeOrder;
    hide SelectSnapshot;
    hide ReserveOrders;
    hide FromVolume;
    if n > 0 {
      var s := SelectSnapshot(source, asOf);
      IssueKeepsVolume(b, source, asOf, target, expiresAt, planned, n - 1);
      var (before, cash) := IssueOrders(b, s, target, expiresAt, planned, n - 1).value;
      var sized := SizeOrder(s, target, expiresAt, planned[n - 1], cash).value;
      if sized.Some? {
        OrderFromVolume(source, asOf, target, expiresAt, planned[n - 1], cash);
        AddedFromVolume(before, Issue(before, sized.value).value, source, sized.value);
      }
    }
  }

  lemma PlanKeepsVolume(b: Book, source: Snapshot, asOf: int, input: ReplayInput, target: Session)
    requires VolumeSized(b, source) && PlanSession(b, SelectSnapshot(source, asOf), input, target).Ok?
    ensures VolumeSized(PlanSession(b, SelectSnapshot(source, asOf), input, target).value, source)
  {
    hide SelectSnapshot;
    hide BuildRebalance;
    hide ComputeNAV;
    hide EvaluationOf;
    hide IssueOrders;
    hide FromVolume;
    hide NextSession;
    var s := SelectSnapshot(source, asOf);
    if b.account.automationEnabled && !Unresolved(b.orders) {
      var nav := ComputeNAV(b.account, b.positions, s, map[]).value;
      var plan := BuildRebalance(PlanInput(b, s, input, EvaluationOf(input, s).value, nav)).value;
      if !plan.pause {
        IssueKeepsVolume(b, source, asOf, target, NextSession(s.calendar, target.closeAt).value.closeAt, plan.orders,
                         |plan.orders|);
      }
    }
  }

  // ---------- Execution ----------

  lemma ExecuteOrderKeepsVolume(b: Book, source: Snapshot, current: Snapshot, n: nat, now: int)
    requires n < |b.orders| && VolumeSized(b, source) && ExecuteOrder(b, source, current, n, now).Ok?
    ensures VolumeSized(ExecuteOrder(b, source, current, n, now).value, source)
  {
    hide VolumeSized;
    hide SelectSnapshot;
    hide HasOpening;
    hide ReleaseOrder;
    hide ApplyFill;
    hide ComputeNAV;
    hide MatchAtOpen;
    hide OpeningPrices;
    hide BarsOn;
    hide SmallestCapacity;
    var o := b.orders[n];
    if !o.Terminal() && now >= o.targetOpenAt && HasOpening(current, Advance(b, n, now).orders[n]) {
      FillIsOrdered(b, source, current, n, now);
    }
    TermsKeepVolume(b, ExecuteOrder(b, source, current, n, now).value, source);
  }

  lemma OpeningFillCloses(b: Book, o: Order, prior: Snapshot, prices: map<int, int>, open: int, used: int,
                          turnover: int, now: int)
    requires var r := OpeningMatch(b, o, prior, prices, open, used, turnover, now); r.Ok? && r.value.fill.Some?
    ensures Closes(OpeningMatch(b, o, prior, prices, open, used, turnover, now).value.fill.value, o)
  {
    hide ComputeNAV;
    hide MatchAtOpen;
    hide SmallestCapacity;
    var nav := ComputeNAV(b.account, b.positions, prior, prices).value;
    MatchedFillIsAcceptable(MatchInput(
      o, open, NotBelowZero(SmallestCapacity(b.orders, o) - used),
      PortfolioInput(b.account, b.positions, b.orders, prior, Evaluation(false, []), b.account.policy, nav, 0, turnover,
                     prices, StrategyParameters([], 0.0, 0.0, 0.0, 0)),
      now));
    hide Acceptable;
  }

  /** A fill is at the opening and of the instrument of its order. */
  lemma FillIsOrdered(b: Book, source: Snapshot, current: Snapshot, n: nat, now: int)
    requires n < |b.orders| && !b.orders[n].Terminal() && now >= b.orders[n].targetOpenAt
    requires HasOpening(current, Advance(b, n, now).orders[n]) && ExecuteOrder(b, source, current, n, now).Ok?
    ensures var after := ExecuteOrder(b, source, current, n, now).value;
      && |b.fills| <= |after.fills| && after.fills[..|b.fills|] == b.fills
      && (forall k :: |b.fills| <= k < |after.fills| ==> Ordered(b.orders, after.fills[k]))
  {
    hide SelectSnapshot;
    hide ReleaseOrder;
    hide ApplyFill;
    hide OpeningPrices;
    hide OpeningMatch;
    hide Sum;
    var before := Advance(b, n, now);
    var o := before.orders[n];
    var date := DateOf(o.targetOpenAt);
    var prior, prices := SelectSnapshot(source, o.targetOpenAt - 1), OpeningPrices(current.bars, date);
    var open := BarsOn(current.bars, date)[o.instrument].open;
    hide BarsOn;
    var used, turnover := Sum(before.fills, SharesFilled(o.targetOpenAt, o.instrument)),
                          Sum(before.fills, GrossFilled(o.targetOpenAt));
    var matched := OpeningMatch(before, o, prior, prices, open, used, turnover, now);
    if matched.Ok? && matched.value.fill.Some? {
      OpeningFillCloses(before, o, prior, prices, open, used, turnover, now);
    }
    assert b.orders[n].targetOpenAt == o.targetOpenAt && b.orders[n].instrument == o.instrument;
  }

  lemma {:induction false} ExecuteOrdersKeepVolume(b: Book, source: Snapshot, current: Snapshot, n: nat, now: int)
    requires n <= |b.orders| && VolumeSized(b, source) && ExecuteOrders(b, source, current, n, now).Ok?
    ensures VolumeSized(ExecuteOrders(b, source, current, n, now).value, source)
  {
    hide VolumeSized;
    hide ExecuteOrder;
    if n > 0 {
      ExecuteOrdersKeepVolume(b, source, current, n - 1, now);
      ExecuteOrderKeepsVolume(ExecuteOrders(b, source, current, n - 1, now).value, source, current, n - 1, now);
    }
  }

  lemma SortedKeepsVolume(b: Book, source: Snapshot)
    requires VolumeSized(b, source)
    ensures VolumeSized(b.(orders := Sort(b.orders, ByOpening())), source)
  {
    hide FromVolume;
    var sorted := Sort(b.orders, ByOpening());
    forall n | 0 <= n < |sorted|
      ensures FromVolume(source, sorted[n])
    {
      SortKeepsElements(b.orders, ByOpening(), sorted[n]);
      var m :| 0 <= m < |b.orders| && b.orders[m] == sorted[n];
    }
    forall k | 0 <= k < |b.fills|
      ensures Ordered(sorted, b.fills[k])
    {
      assert Ordered(b.orders, b.fills[k]);
      var n :| 0 <= n < |b.orders| && b.orders[n].targetOpenAt == b.fills[k].effectiveAt
               && b.orders[n].instrument == b.fills[k].instrument;
      SortKeepsElements(b.orders, ByOpening(), b.orders[n]);
      var m :| 0 <= m < |sorted| && sorted[m] == b.orders[n];
    }
  }

  // ---------- Runs ----------

  lemma SessionKeepsVolume(b: Book, input: ReplayInput, previous: Session, session: Session)
    requires VolumeSized(b, input.source) && RunSession(b, input, previous, session).Ok?
    ensures VolumeSized(RunSession(b, input, previous, session).value, input.source)
  {
    hide VolumeSized;
    hide Reconcile;
    hide PlanSession;
    hide ExecuteOrders;
    hide ComputeNAV;
    hide Sort;
    hide SelectSnapshot;
    var decisionAt, now := DecisionTime(previous), DecisionTime(session);
    var decision, current := SelectSnapshot(input.source, decisionAt), SelectSnapshot(input.source, now);
    ReconcileKeepsVolume(b, input.source, decision, decisionAt, input.universe);
    var reconciled := Reconcile(b, decision, decisionAt, input.universe).value;
    PlanKeepsVolume(reconciled, input.source, decisionAt, input, session);
    var planned := PlanSession(reconciled, decision, input, session).value;
    ReconcileKeepsVolume(planned, input.source, current, session.openAt, input.universe);
    var atOpen := Reconcile(planned, current, session.openAt, input.universe).value;
    SortedKeepsVolume(atOpen, input.source);
    var sorted := atOpen.(orders := Sort(atOpen.orders, ByOpening()));
    ExecuteOrdersKeepVolume(sorted, input.source, current, |sorted.orders|, now);
    var executed := Execute(atOpen, input.source, current, now).value;
    ReconcileKeepsVolume(executed, input.source, current, now, input.universe);
    PeakKeepsVolume(Reconcile(executed, current, now, input.universe).value, input.source,
                    CloseSession(planned, input, session).value.peak);
  }

  lemma PeakKeepsVolume(b: Book, source: Snapshot, peak: int)
    requires VolumeSized(b, source)
    ensures VolumeSized(b.(peak := peak), source)
  {
  }

  lemma {:induction false} RunKeepsVolume(input: ReplayInput, days: seq<Session>, n: nat)
    requires n < |days| && RunSessions(input, days, n).Ok?
    ensures VolumeSized(RunSessions(input, days, n).value, input.source)
  {
    hide RunSession;
    hide FromVolume;
    if n > 0 {
      RunKeepsVolume(input, days, n - 1);
      SessionKeepsVolume(RunSessions(input, days, n - 1).value, input, days[n - 1], days[n]);
    }
  }

  /** Over all executions of a run, late ones included, the shares filled for one opening and instrument are within one
      part in two thousand of the volume of the twenty latest sessions known when an order for them was decided. */
  lemma FillsWithinVolume(input: ReplayInput, days: seq<Session>, n: nat, f: Fill) returns (o: Order, recent: seq<Bar>)
    requires n < |days| && WellFormedDays(days) && WellFormedSource(input.source)
    requires 0 < input.initialCash <= MAX_INITIAL_CASH
    requires RunSessions(input, days, n).Ok? && f in RunSessions(input, days, n).value.fills
    ensures var b := RunSessions(input, days, n).value;
      && o in b.orders && o.targetOpenAt == f.effectiveAt && o.instrument == f.instrument
      && |recent| == VOLUME_SESSIONS && CleanVolumes(recent)
      && (forall bar :: bar in recent ==> bar in KnownBarsOf(input.source, o) && CompletedBefore(o.targetOpenAt)(bar))
      && VOLUME_SHARE * Sum(b.fills, SharesFilled(f.effectiveAt, f.instrument)) <= Sum(recent, Volume())
  {
    RunKeepsVolume(input, days, n);
    RunKeeps(input, days, n);
    var b := RunSessions(input, days, n).value;
    hide RunSessions;
    assert WithinCapacity(b);
    hide AtClose;
    hide SelectSnapshot;
    hide PreviousVolumeCapacity;
    var k :| 0 <= k < |b.fills| && b.fills[k] == f;
    assert Ordered(b.orders, b.fills[k]);
    var m :| 0 <= m < |b.orders| && b.orders[m].targetOpenAt == f.effectiveAt && b.orders[m].instrument == f.instrument;
    o := b.orders[m];
    assert FromVolume(input.source, o) && CapacityKept(b, o);
    var older: seq<Bar>;
    older, recent := CapacityFromLatestSessions(KnownBarsOf(input.source, o), o.targetOpenAt);
    RecentAreKnown(KnownBarsOf(input.source, o), o.targetOpenAt, older, recent);
  }

  lemma RecentAreKnown(bars: seq<Bar>, before: int, older: seq<Bar>, recent: seq<Bar>)
    requires multiset(older + recent) == multiset(Filter(bars, CompletedBefore(before)))
    ensures forall bar :: bar in recent ==> bar in bars && CompletedBefore(before)(bar)
  {
    forall bar | bar in recent
      ensures bar in bars && CompletedBefore(before)(bar)
    {
      assert bar in older + recent;
      assert bar in multiset(older + recent);
      assert bar in multiset(Filter(bars, CompletedBefore(before)));
      FilterKeeps(bars, CompletedBefore(before), bar);
    }
  }
}
