/** Over whole runs: sells are never filled behind a split, because a split that meets a waiting sell stops the
    replay. */
module SellRuns {
  import opened Money
  import opened Domain
  import opened Calendars
  import opened Lists
  import opened Snapshots
  import opened Risk
  import opened Replay
  import opened BookEvents
  import opened BookMeaning
  import opened Causality
  import opened Reconciling
  import opened Planning
  import opened Executing
  import opened Running
  import opened LateFills
  import opened WaitingSells

  /** No sell is recorded as filled behind a split of its name that took effect after it. */
  predicate SellsInStep(ledger: seq<LedgerEntry>) {
    forall i, j :: 0 <= i < j < |ledger| && ledger[i].kind == SplitAdjustment && SaleEntry(ledger[j])
                   && ledger[i].instrument == ledger[j].instrument ==>
      ledger[i].effectiveAt <= ledger[j].effectiveAt
  }

  predicate SaleEntry(e: LedgerEntry) {
    e.key.FillKey? && e.kind == SellFill
  }

  ghost predicate SellsKeep(b: Book) {
    Free(b, {}, 0) && SellsInStep(b.ledger)
  }

  /** Entries other than sales, or one sale behind no later split, leave the sells in step. */
  lemma SellsStayInStep(ledger: seq<LedgerEntry>, after: seq<LedgerEntry>)
    requires SellsInStep(ledger) && ledger <= after
    requires forall i, j :: 0 <= i < |ledger| <= j < |after| && SaleEntry(after[j]) && after[i].kind == SplitAdjustment
                            && after[i].instrument == after[j].instrument ==>
      after[i].effectiveAt <= after[j].effectiveAt
    requires forall j :: |ledger| < j < |after| ==> !SaleEntry(after[j])
    requires |ledger| < |after| && SaleEntry(after[|ledger|]) ==> |after| == |ledger| + 1
    ensures SellsInStep(after)
  {
    forall i, j | 0 <= i < j < |after| && after[i].kind == SplitAdjustment && SaleEntry(after[j])
                  && after[i].instrument == after[j].instrument
      ensures after[i].effectiveAt <= after[j].effectiveAt
    {
      if j < |ledger| {
        assert after[i] == ledger[i] && after[j] == ledger[j];
      }
    }
  }

  // ---------- Reconciling and planning ----------

  lemma ReconcileKeepsSells(b: Book, source: Snapshot, asOf: int, now: int, relevant: set<int>)
    requires SellsKeep(b) && Reconcile(b, SelectSnapshot(source, asOf), now, relevant).Ok?
    ensures SellsKeep(Reconcile(b, SelectSnapshot(source, asOf), now, relevant).value)
  {
    var s := SelectSnapshot(source, asOf);
    hide SelectSnapshot;
    hide Reconcile;
    hide Free;
    hide Traced;
    hide TakenAs;
    hide Takeable;
    ReconcileKeepsFree(b, s, now, relevant, {}, 0);
    ReconcileReconciles(b, source, asOf, relevant, now);
    SellsStayInStep(b.ledger, Reconcile(b, s, now, relevant).value.ledger);
  }

  /** New orders open after everything recorded took effect. */
  lemma IssueKeepsSells(b: Book, after: Book, target: Session, expiresAt: int)
    requires SellsKeep(b) && BackedBook(after) && IssuedFor(b, after, target, expiresAt) && after.applied == b.applied
    requires forall i :: 0 <= i < |b.ledger| ==> b.ledger[i].effectiveAt <= target.openAt
    ensures SellsKeep(after)
  {
    hide BackedBook;
    SellsStayInStep(b.ledger, after.ledger);
    forall n, i | 0 <= n < |after.orders| && 0 <= i < |after.ledger| && after.ledger[i].kind == SplitAdjustment
                  && OpenSell(after.orders[n], after.ledger[i].instrument)
      ensures after.ledger[i].effectiveAt <= after.orders[n].targetOpenAt
    {
      assert after.ledger[i] == b.ledger[i];
      if n < |b.orders| {
        assert after.orders[n] == b.orders[n];
      }
    }
    forall id | id in after.applied
      ensures RecordedFrom(after.ledger, after.applied[id], 0)
    {
      StillRecorded(b.ledger, after.ledger, b.applied[id], 0);
    }
  }

  // ---------- Executing ----------

  /** What an execution keeps of the sells: it records no split, and fills a sell at an opening no split has passed. */
  ghost predicate Trading(start: Book, b: Book) {
    start.ledger <= b.ledger && SellsAhead(b, 0) && SellsInStep(b.ledger)
  }

  lemma StepKeepsTrading(start: Book, b: Book, after: Book, n: nat)
    requires Trading(start, b) && n < |b.orders| && OneStep(b, after, n)
    requires b.orders[n].Terminal() ==> after.orders[n].Terminal() && after.ledger == b.ledger
    ensures Trading(start, after)
  {
    if after.ledger != b.ledger {
      var e :| after.ledger == b.ledger + [e] && !e.key.ActionKey?
               && e.kind != SplitAdjustment && (e.kind == SellFill ==> e.key.FillKey? && b.orders[n].side == Sell)
               && (e.key.FillKey? ==>
                     e.instrument == b.orders[n].instrument && e.effectiveAt == b.orders[n].targetOpenAt);
      forall i | 0 <= i < |b.ledger|
        ensures after.ledger[i] == b.ledger[i]
      {
      }
      assert after.ledger[|b.ledger|] == e;
      if SaleEntry(e) {
        assert OpenSell(b.orders[n], e.instrument);
      }
      SellsStayInStep(b.ledger, after.ledger);
    }
    forall k, i | 0 <= k < |after.orders| && 0 <= i < |after.ledger| && after.ledger[i].kind == SplitAdjustment
                  && OpenSell(after.orders[k], after.ledger[i].instrument)
      ensures after.ledger[i].effectiveAt <= after.orders[k].targetOpenAt
    {
      assert after.ledger[i] == b.ledger[i];
      assert OpenSell(b.orders[k], b.ledger[i].instrument);
    }
  }

  lemma {:induction false} ExecutedTrading(start: Book, b: Book, source: Snapshot, current: Snapshot, n: nat, now: int)
    requires n <= |b.orders| && Trading(start, b) && ExecuteOrders(b, source, current, n, now).Ok?
    ensures Trading(start, ExecuteOrders(b, source, current, n, now).value)
  {
    hide Trading;
    hide ExecuteOrder;
    hide HasOpening;
    hide OneStep;
    if n > 0 {
      ExecutedTrading(start, b, source, current, n - 1, now);
      var before := ExecuteOrders(b, source, current, n - 1, now).value;
      ExecuteOrderHandles(before, source, current, n - 1, now);
      StepKeepsTrading(start, before, ExecuteOrder(before, source, current, n - 1, now).value, n - 1);
    }
  }

  lemma SortedTrading(b: Book)
    requires SellsAhead(b, 0) && SellsInStep(b.ledger)
    ensures Trading(b, b.(orders := Sort(b.orders, ByOpening())))
  {
    var sorted := Sort(b.orders, ByOpening());
    forall n, i | 0 <= n < |sorted| && 0 <= i < |b.ledger| && b.ledger[i].kind == SplitAdjustment
                  && OpenSell(sorted[n], b.ledger[i].instrument)
      ensures b.ledger[i].effectiveAt <= sorted[n].targetOpenAt
    {
      SortKeepsElements(b.orders, ByOpening(), sorted[n]);
      var m :| 0 <= m < |b.orders| && b.orders[m] == sorted[n];
    }
  }

  lemma ExecuteKeepsSells(b: Book, source: Snapshot, current: Snapshot, now: int)
    requires SellsKeep(b) && Execute(b, source, current, now).Ok?
    requires BackedBook(Execute(b, source, current, now).value)
    requires Execute(b, source, current, now).value.applied == b.applied
    ensures SellsKeep(Execute(b, source, current, now).value)
  {
    hide BackedBook;
    hide SellsAhead;
    hide SellsInStep;
    hide Sort;
    hide ExecuteOrders;
    var sorted, after := b.(orders := Sort(b.orders, ByOpening())), Execute(b, source, current, now).value;
    SortedTrading(b);
    ExecutedTrading(b, sorted, source, current, |sorted.orders|, now);
    forall id | id in after.applied
      ensures RecordedFrom(after.ledger, after.applied[id], 0)
    {
      StillRecorded(b.ledger, after.ledger, b.applied[id], 0);
    }
  }

  // ---------- Sessions ----------

  lemma SoundIsBacked(b: Book)
    requires Sound(b)
    ensures BackedBook(b)
  {
  }

  lemma CausalIsBacked(b: Book, now: int)
    requires Causal(b, now)
    ensures BackedBook(b) && forall i :: 0 <= i < |b.ledger| ==> b.ledger[i].effectiveAt <= now
  {
    hide CoveredAt;
    hide NeverNegative;
    hide Dated;
    SoundIsBacked(b);
  }

  lemma OpenSessionKeepsSells(b: Book, input: ReplayInput, previous: Session, session: Session)
    requires WellFormedSource(input.source) && AtClose(b, input, previous) && SellsKeep(b)
    requires DecisionTime(previous) < session.openAt && previous.date < session.date
    requires previous.openAt <= previous.closeAt
    requires OpenSession(b, input, previous, session).Ok?
    ensures SellsKeep(OpenSession(b, input, previous, session).value)
  {
    var decisionAt := DecisionTime(previous);
    var decision := SelectSnapshot(input.source, decisionAt);
    assert decision.asOf == decisionAt;
    hide SelectSnapshot;
    hide Reconcile;
    hide PlanSession;
    hide Causal;
    hide BackedBook;
    hide OpenAreUnfilled;
    hide SellsKeep;
    hide Extends;
    hide Numbered;
    hide WithinCapacity;
    hide AlwaysReady;
    hide Moved;
    hide AllTaken;
    hide NothingMoved;
    hide IssuedFor;
    ReconcileKeeps(b, input.source, decisionAt, decisionAt, input.universe);
    ReconcileKeepsSells(b, input.source, decisionAt, decisionAt, input.universe);
    var reconciled := Reconcile(b, decision, decisionAt, input.universe).value;
    ExtendsKeepsNumbers(b, reconciled, previous.date, previous.openAt);
    PlanKeeps(reconciled, previous.date, previous.openAt, decision, input, session);
    var expiresAt := PlanIssuesFor(reconciled, decision, input, session);
    var planned := PlanSession(reconciled, decision, input, session).value;
    CausalIsBacked(reconciled, decisionAt);
    CausalIsBacked(planned, decisionAt);
    IssueKeepsSells(reconciled, planned, session, expiresAt);
  }

  /** At its decision a session has taken every action in force that is known. */
  ghost predicate AllInForce(b: Book, input: ReplayInput, session: Session) {
    forall a :: a in SelectSnapshot(input.source, DecisionTime(session)).actions ==>
      TakenAs(b, a, input.universe, DecisionTime(session))
  }

  lemma ExecutedIsSound(b: Book, input: ReplayInput, decisionAt: int, session: Session)
    requires WellFormedSource(input.source) && AtOpen(b, input, decisionAt, session)
    requires session.openAt <= session.closeAt && decisionAt < session.openAt && CloseSession(b, input, session).Ok?
    ensures var now, current := DecisionTime(session), SelectSnapshot(input.source, DecisionTime(session));
      var atOpen := Reconcile(b, current, session.openAt, input.universe).value;
      var executed := Execute(atOpen, input.source, current, now).value;
      BackedBook(executed) && executed.applied == atOpen.applied
  {
    var now := DecisionTime(session);
    var current := SelectSnapshot(input.source, now);
    hide SelectSnapshot;
    hide Causal;
    hide OpenAreUnfilled;
    hide Reconcile;
    hide Execute;
    hide Numbered;
    hide WithinCapacity;
    hide ComputeNAV;
    CausalLater(b, decisionAt, session.openAt);
    MovedLater(b, decisionAt, session.openAt);
    ReadyLater(b, input.source, input.universe, decisionAt, now);
    ReconcileKeeps(b, input.source, now, session.openAt, input.universe);
    var atOpen := Reconcile(b, current, session.openAt, input.universe).value;
    ExtendsKeepsNumbers(b, atOpen, session.date, session.openAt);
    CausalLater(atOpen, session.openAt, now);
    ExecuteKeeps(atOpen, input.source, current, now, session.date, session.openAt);
    CausalIsBacked(Execute(atOpen, input.source, current, now).value, now);
  }

  lemma ExecutedKeepsSells(b: Book, input: ReplayInput, decisionAt: int, session: Session)
    requires WellFormedSource(input.source) && AtOpen(b, input, decisionAt, session) && SellsKeep(b)
    requires session.openAt <= session.closeAt && decisionAt < session.openAt && CloseSession(b, input, session).Ok?
    ensures var now, current := DecisionTime(session), SelectSnapshot(input.source, DecisionTime(session));
      SellsKeep(Execute(Reconcile(b, current, session.openAt, input.universe).value, input.source, current, now).value)
  {
    hide AtOpen;
    hide WellFormedSource;
    hide SelectSnapshot;
    hide Reconcile;
    hide Execute;
    hide ComputeNAV;
    hide SellsKeep;
    hide BackedBook;
    ExecutedIsSound(b, input, decisionAt, session);
    var now := DecisionTime(session);
    var current := SelectSnapshot(input.source, now);
    ReconcileKeepsSells(b, input.source, now, session.openAt, input.universe);
    ExecuteKeepsSells(Reconcile(b, current, session.openAt, input.universe).value, input.source, current, now);
  }

  lemma ReconciledInForce(b: Book, input: ReplayInput, session: Session)
    requires SellsKeep(b)
    requires Reconcile(b, SelectSnapshot(input.source, DecisionTime(session)), DecisionTime(session),
                       input.universe).Ok?
    ensures var closed :=
      Reconcile(b, SelectSnapshot(input.source, DecisionTime(session)), DecisionTime(session), input.universe).value;
      SellsKeep(closed) && AllInForce(closed, input, session)
  {
    hide SelectSnapshot;
    hide Reconcile;
    hide Free;
    hide SellsInStep;
    hide TakenAs;
    hide OnlyCancels;
    var now := DecisionTime(session);
    ReconcileKeepsSells(b, input.source, now, now, input.universe);
    ReconcileKeepsFree(b, SelectSnapshot(input.source, now), now, input.universe, {}, 0);
  }

  lemma CloseSessionKeepsSells(b: Book, input: ReplayInput, decisionAt: int, session: Session)
    requires WellFormedSource(input.source) && AtOpen(b, input, decisionAt, session) && SellsKeep(b)
    requires session.openAt <= session.closeAt && decisionAt < session.openAt && CloseSession(b, input, session).Ok?
    ensures SellsKeep(CloseSession(b, input, session).value)
    ensures AllInForce(CloseSession(b, input, session).value, input, session)
  {
    hide AtOpen;
    hide WellFormedSource;
    hide SelectSnapshot;
    hide Reconcile;
    hide Execute;
    hide ComputeNAV;
    hide SellsKeep;
    hide AllInForce;
    ExecutedKeepsSells(b, input, decisionAt, session);
    var now := DecisionTime(session);
    var current := SelectSnapshot(input.source, now);
    var executed := Execute(Reconcile(b, current, session.openAt, input.universe).value, input.source, current,
                            now).value;
    ReconciledInForce(executed, input, session);
    PeakKeepsSells(Reconcile(executed, current, now, input.universe).value, CloseSession(b, input, session).value.peak,
                   input, session);
  }

  lemma PeakKeepsSells(b: Book, peak: int, input: ReplayInput, session: Session)
    requires SellsKeep(b) && AllInForce(b, input, session)
    ensures SellsKeep(b.(peak := peak)) && AllInForce(b.(peak := peak), input, session)
  {
    hide SelectSnapshot;
    hide RecordedFrom;
  }

  // ---------- Runs ----------

  lemma {:induction false} RunKeepsSells(input: ReplayInput, days: seq<Session>, n: nat)
    requires n < |days| && WellFormedDays(days) && WellFormedSource(input.source)
    requires 0 < input.initialCash <= MAX_INITIAL_CASH
    requires RunSessions(input, days, n).Ok?
    ensures var b := RunSessions(input, days, n).value;
      SellsKeep(b) && (n > 0 ==> AllInForce(b, input, days[n])) && (n == 0 ==> b.orders == [])
  {
    hide AtClose;
    hide AtOpen;
    hide OpenSession;
    hide CloseSession;
    hide AllInForce;
    hide WellFormedSource;
    if n == 0 {
      NewBookIsSound(input.initialCash);
      SoundIsBacked(NewBook(input.initialCash));
      hide BackedBook;
    } else {
      hide SellsKeep;
      RunKeepsSells(input, days, n - 1);
      RunKeeps(input, days, n - 1);
      var before := RunSessions(input, days, n - 1).value;
      OpenSessionKeeps(before, input, days[n - 1], days[n]);
      OpenSessionKeepsSells(before, input, days[n - 1], days[n]);
      CloseSessionKeepsSells(OpenSession(before, input, days[n - 1], days[n]).value, input, DecisionTime(days[n - 1]),
                             days[n]);
    }
  }

  /** Whatever the bars do, no sell of a replay that succeeds is filled behind a split of its name that took effect
      after its opening. */
  lemma SellsFollowSplits(input: ReplayInput, days: seq<Session>, n: nat)
    requires n < |days| && WellFormedDays(days) && WellFormedSource(input.source)
    requires 0 < input.initialCash <= MAX_INITIAL_CASH
    requires RunSessions(input, days, n).Ok?
    ensures var ledger := RunSessions(input, days, n).value.ledger;
      forall i, j :: 0 <= i < j < |ledger| && ledger[i].kind == SplitAdjustment && ledger[j].kind == SellFill
                     && ledger[i].instrument == ledger[j].instrument ==>
        ledger[i].effectiveAt <= ledger[j].effectiveAt
  {
    hide RunSessions;
    RunKeepsSells(input, days, n);
    RunKeeps(input, days, n);
    var b := RunSessions(input, days, n).value;
    hide WellFormedSource;
    hide Free;
    assert forall j :: 0 <= j < |b.ledger| && b.ledger[j].kind == SellFill ==> SaleEntry(b.ledger[j]) by {
      hide AllInForce;
      hide SellsInStep;
      SalesAreFills(b, DecisionTime(days[n]));
    }
  }

  lemma SalesAreFills(b: Book, now: int)
    requires Causal(b, now)
    ensures forall j :: 0 <= j < |b.ledger| && b.ledger[j].kind == SellFill ==> SaleEntry(b.ledger[j])
  {
    hide CoveredAt;
    hide NeverNegative;
    hide BackedBook;
    hide Balanced;
    forall j | 0 <= j < |b.ledger| && b.ledger[j].kind == SellFill
      ensures SaleEntry(b.ledger[j])
    {
      assert SoundEntry(b.applied.Keys, b.ledger[j]);
    }
  }

  // ---------- A waiting sell stops the replay ----------

  /** Planning changes no order there was. */
  lemma OpeningKeepsOrder(b: Book, input: ReplayInput, previous: Session, session: Session, m: nat)
    requires m < |b.orders| && SellsKeep(b) && AllInForce(b, input, previous)
    requires OpenSession(b, input, previous, session).Ok?
    requires b.orders[m].targetOpenAt <= DecisionTime(previous)
    requires WellFormedSource(input.source) && AtClose(b, input, previous)
    requires previous.openAt <= previous.closeAt && DecisionTime(previous) < session.openAt
    requires previous.date < session.date
    ensures var planned := OpenSession(b, input, previous, session).value;
      && m < |planned.orders| && planned.orders[m] == b.orders[m] && b.applied.Keys <= planned.applied.Keys
  {
    var decisionAt := DecisionTime(previous);
    var decision := SelectSnapshot(input.source, decisionAt);
    assert decision.asOf == decisionAt;
    hide SelectSnapshot;
    hide Reconcile;
    hide PlanSession;
    hide Causal;
    hide OpenAreUnfilled;
    hide Numbered;
    hide WithinCapacity;
    hide AlwaysReady;
    hide Moved;
    hide Free;
    hide SellsInStep;
    hide NothingMoved;
    hide AllTaken;
    ReconcileKeepsFree(b, decision, decisionAt, input.universe, {}, 0);
    var reconciled := Reconcile(b, decision, decisionAt, input.universe).value;
    assert reconciled.orders[m] == b.orders[m] by {
      NothingLeftToCancel(b, reconciled, input, previous, m);
    }
    ReconcileKeeps(b, input.source, decisionAt, decisionAt, input.universe);
    ExtendsKeepsNumbers(b, reconciled, previous.date, previous.openAt);
    PlanKeeps(reconciled, previous.date, previous.openAt, decision, input, session);
    var expiresAt := PlanIssuesFor(reconciled, decision, input, session);
  }

  /** No split known at a decision and in force by the opening of an order is left to cancel it. */
  lemma NothingLeftToCancel(b: Book, after: Book, input: ReplayInput, session: Session, m: nat)
    requires m < |b.orders| && AllInForce(b, input, session) && b.orders[m].targetOpenAt <= DecisionTime(session)
    requires OnlyCancels(b, after, SelectSnapshot(input.source, DecisionTime(session)).actions, input.universe)
    ensures after.orders[m] == b.orders[m]
  {
    hide SelectSnapshot;
    var known := SelectSnapshot(input.source, DecisionTime(session)).actions;
    forall x | x in known && x.instrument in input.universe && x.effectiveAt <= DecisionTime(session)
      ensures x.id in b.applied
    {
      assert TakenAs(b, x, input.universe, DecisionTime(session));
    }
  }

  /** Nor is one that is known later. */
  lemma NothingElseCancels(b: Book, planned: Book, after: Book, input: ReplayInput, previous: Session, late: int,
                           m: nat)
    requires AllInForce(b, input, previous) && Coherent(input.source.actions) && DecisionTime(previous) <= late
    requires m < |planned.orders| && planned.orders[m].targetOpenAt <= DecisionTime(previous)
    requires b.applied.Keys <= planned.applied.Keys
    requires OnlyCancels(planned, after, SelectSnapshot(input.source, late).actions, input.universe)
    ensures after.orders[m] == planned.orders[m]
  {
    hide SelectSnapshot;
    hide Coherent;
    var known := SelectSnapshot(input.source, late).actions;
    forall x | x in known && x.instrument in input.universe && x.availableAt <= x.effectiveAt <= DecisionTime(previous)
      ensures x.id in planned.applied
    {
      StillSelected(input.source, DecisionTime(previous), late, x);
      var y :| y in SelectSnapshot(input.source, DecisionTime(previous)).actions && y.id == x.id
               && SameActionEconomics(y, x);
      assert TakenAs(b, y, input.universe, DecisionTime(previous));
    }
  }

  /** What was taken as an action is behind the opening of every open sell of its name. */
  lemma TakenIsBehind(b: Book, a: CorporateAction, relevant: set<int>, now: int, m: nat)
    requires Free(b, {}, 0) && TakenAs(b, a, relevant, now) && a.instrument in relevant && a.effectiveAt <= now
    requires a.kind == Split
    requires m < |b.orders| && OpenSell(b.orders[m], a.instrument)
    ensures a.effectiveAt <= b.orders[m].targetOpenAt
  {
    hide BackedBook;
    assert RecordedFrom(b.ledger, b.applied[a.id], 0);
    var i :| 0 <= i < |b.ledger| && RecordOf(b.ledger[i], b.applied[a.id]);
    assert OpenSell(b.orders[m], b.ledger[i].instrument);
  }

  /** A sell that is still open when a session has been reconciled at its opening waits for no split known then. */
  lemma StillOpenIsAhead(b: Book, input: ReplayInput, previous: Session, session: Session, m: nat, a: CorporateAction)
    requires m < |b.orders| && SellsKeep(b) && AllInForce(b, input, previous)
    requires RunSession(b, input, previous, session).Ok?
    requires WellFormedSource(input.source) && AtClose(b, input, previous)
    requires previous.openAt <= previous.closeAt && DecisionTime(previous) < session.openAt <= session.closeAt
    requires previous.date < session.date
    requires OpenSell(b.orders[m], a.instrument) && b.orders[m].targetOpenAt <= DecisionTime(previous)
    requires a in SelectSnapshot(input.source, DecisionTime(session)).actions && a.kind == Split
    requires a.instrument in input.universe
    requires a.effectiveAt <= session.openAt
    ensures a.effectiveAt <= b.orders[m].targetOpenAt
  {
    hide SelectSnapshot;
    hide Reconcile;
    hide OpenSession;
    hide Execute;
    hide ComputeNAV;
    hide AtClose;
    hide AllInForce;
    hide SellsInStep;
    hide Free;
    hide TakenAs;
    OpeningKeepsOrder(b, input, previous, session, m);
    OpenSessionKeepsSells(b, input, previous, session);
    var planned, late := OpenSession(b, input, previous, session).value, DecisionTime(session);
    ReconcileKeepsFree(planned, SelectSnapshot(input.source, late), session.openAt, input.universe, {}, 0);
    var atOpen := Reconcile(planned, SelectSnapshot(input.source, late), session.openAt, input.universe).value;
    NothingElseCancels(b, planned, atOpen, input, previous, late, m);
    TakenIsBehind(atOpen, a, input.universe, session.openAt, m);
  }

  /** A sell still open after a session meets a split that takes effect after its opening and by the next one: the
      replay stops. */
  lemma WaitingSellStopsReplay(input: ReplayInput, days: seq<Session>, n: nat, m: nat, a: CorporateAction)
    requires n + 1 < |days| && WellFormedDays(days) && WellFormedSource(input.source)
    requires 0 < input.initialCash <= MAX_INITIAL_CASH
    requires RunSessions(input, days, n).Ok? && m < |RunSessions(input, days, n).value.orders|
    requires OpenSell(RunSessions(input, days, n).value.orders[m], a.instrument) && a.kind == Split
    requires a.instrument in input.universe
    requires a in SelectSnapshot(input.source, DecisionTime(days[n + 1])).actions
    requires days[n].openAt < a.effectiveAt <= days[n + 1].openAt
    ensures RunSessions(input, days, n + 1).Err?
  {
    hide SelectSnapshot;
    hide RunSession;
    hide SellsKeep;
    hide AllInForce;
    hide WellFormedSource;
    hide Causal;
    hide OpenAreUnfilled;
    hide AlwaysReady;
    RunKeepsSells(input, days, n);
    RunKeeps(input, days, n);
    var b := RunSessions(input, days, n).value;
    assert NumberedOrder(b.orders[m], days[n].date, days[n].openAt);
    if RunSession(b, input, days[n], days[n + 1]).Ok? {
      StillOpenIsAhead(b, input, days[n], days[n + 1], m, a);
    }
  }
}
