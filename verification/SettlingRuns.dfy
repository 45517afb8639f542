// Whole runs and the numbers of their sales: a run can be stopped by a shared number only when a plan sells a name
// twice.
module SettlingRuns {
  import opened Outcomes
  import opened Calendars
  import opened Lists
  import opened Sums
  import opened Ledger
  import opened Snapshots
  import opened Risk
  import opened Rebalance
  import opened Replay
  import opened BookMeaning
  import opened SharedNumbers
  import opened Volumes
  import opened DistinctSales
  import opened Running

  // ---------- One session ----------

  /** The book of a session once its orders have been executed, before it is reconciled at the close. */
  function Executed(b: Book, input: ReplayInput, previous: Session, session: Session): Result<Book> {
    var planned :- OpenSession(b, input, previous, session);
    var current := SelectSnapshot(input.source, DecisionTime(session));
    var atOpen :- Reconcile(planned, current, session.openAt, input.universe);
    Execute(atOpen, input.source, current, DecisionTime(session))
  }

  /** What the plan of a session asks for. */
  function PlannedAt(b: Book, input: ReplayInput, previous: Session): seq<PlannedOrder> {
    var decision := SelectSnapshot(input.source, DecisionTime(previous));
    var reconciled := Reconcile(b, decision, DecisionTime(previous), input.universe);
    if reconciled.Err? then [] else PlannedTrades(reconciled.value, decision, input)
  }

  lemma ExecutedMatches(b: Book, input: ReplayInput, previous: Session, session: Session)
    requires SalesMatch(b) && Executed(b, input, previous, session).Ok?
    ensures SalesMatch(Executed(b, input, previous, session).value)
  {
    hide SalesMatch;
    hide NoSale;
    hide Reconcile;
    hide PlanSession;
    hide Execute;
    hide SelectSnapshot;
    var decisionAt, now := DecisionTime(previous), DecisionTime(session);
    var decision, current := SelectSnapshot(input.source, decisionAt), SelectSnapshot(input.source, now);
    ReconcileKeepsMatch(b, decision, decisionAt, input.universe);
    var reconciled := Reconcile(b, decision, decisionAt, input.universe).value;
    PlanIsNoSale(reconciled, decision, input, session);
    NoSaleKeepsMatch(reconciled, PlanSession(reconciled, decision, input, session).value);
    var planned := PlanSession(reconciled, decision, input, session).value;
    ReconcileKeepsMatch(planned, current, session.openAt, input.universe);
    ExecuteMatches(Reconcile(planned, current, session.openAt, input.universe).value, input.source, current, now);
  }

  lemma ReconcileKeepsSoldOnce(b: Book, s: Snapshot, now: int, relevant: set<int>, date: int)
    requires SoldOnce(b, date) && Reconcile(b, s, now, relevant).Ok?
    ensures SoldOnce(Reconcile(b, s, now, relevant).value, date)
  {
    hide SoldOnce;
    hide ReconcileActions;
    hide Sort;
    hide SettleReceivables;
    var settled, actions := Settle(b, s.calendar, now).value, Sort(s.actions, ByEffect());
    ActionsKeepTerms(settled, actions, |actions|, now, relevant);
    TermsKeepSoldOnce(b, Reconcile(b, s, now, relevant).value, date);
  }

  lemma ExecuteOrderKeepsTerms(b: Book, source: Snapshot, current: Snapshot, n: nat, now: int)
    requires n < |b.orders| && ExecuteOrder(b, source, current, n, now).Ok?
    ensures SameTermsAll(b, ExecuteOrder(b, source, current, n, now).value)
  {
    hide SelectSnapshot;
    hide HasOpening;
    hide ReleaseOrder;
    hide ApplyFill;
    hide OpeningMatch;
    hide OpeningPrices;
    hide BarsOn;
    hide Sum;
  }

  lemma {:induction false} ExecuteOrdersKeepSoldOnce(b: Book, source: Snapshot, current: Snapshot, n: nat, now: int,
                                                     date: int)
    requires n <= |b.orders| && SoldOnce(b, date) && ExecuteOrders(b, source, current, n, now).Ok?
    ensures SoldOnce(ExecuteOrders(b, source, current, n, now).value, date)
  {
    hide SoldOnce;
    hide ExecuteOrder;
    if n > 0 {
      ExecuteOrdersKeepSoldOnce(b, source, current, n - 1, now, date);
      var before := ExecuteOrders(b, source, current, n - 1, now).value;
      ExecuteOrderKeepsTerms(before, source, current, n - 1, now);
      TermsKeepSoldOnce(before, ExecuteOrders(b, source, current, n, now).value, date);
    }
  }

  lemma ExecuteKeepsSoldOnce(b: Book, source: Snapshot, current: Snapshot, now: int, date: int)
    requires SoldOnce(b, date) && Execute(b, source, current, now).Ok?
    ensures SoldOnce(Execute(b, source, current, now).value, date)
  {
    var sorted := b.(orders := Sort(b.orders, ByOpening()));
    SortPermutes(b.orders, ByOpening());
    forall id
      ensures Sum(sorted.orders, SellsUnder(id)) <= 1
    {
      SumPermuted(sorted.orders, b.orders, SellsUnder(id));
    }
    forall n | 0 <= n < |sorted.orders|
      ensures sorted.orders[n].id.ReplayId? && sorted.orders[n].id.day <= date
    {
      SortKeepsElements(b.orders, ByOpening(), sorted.orders[n]);
    }
    assert SoldOnce(sorted, date);
    hide SoldOnce;
    hide Sort;
    hide ExecuteOrders;
    ExecuteOrdersKeepSoldOnce(sorted, source, current, |sorted.orders|, now, date);
  }

  lemma ExecutedKeepsSoldOnce(b: Book, input: ReplayInput, previous: Session, session: Session)
    requires SoldOnce(b, previous.date) && previous.date < session.date && Executed(b, input, previous, session).Ok?
    requires SellsOnce(PlannedAt(b, input, previous))
    ensures SoldOnce(Executed(b, input, previous, session).value, session.date)
  {
    hide SoldOnce;
    hide SellsOnce;
    hide Reconcile;
    hide PlanSession;
    hide PlannedTrades;
    hide Execute;
    hide SelectSnapshot;
    var decisionAt, now := DecisionTime(previous), DecisionTime(session);
    var decision, current := SelectSnapshot(input.source, decisionAt), SelectSnapshot(input.source, now);
    ReconcileKeepsSoldOnce(b, decision, decisionAt, input.universe, previous.date);
    var reconciled := Reconcile(b, decision, decisionAt, input.universe).value;
    PlanKeepsSoldOnce(reconciled, decision, input, session, previous.date);
    var planned := PlanSession(reconciled, decision, input, session).value;
    ReconcileKeepsSoldOnce(planned, current, session.openAt, input.universe, session.date);
    ExecuteKeepsSoldOnce(Reconcile(planned, current, session.openAt, input.universe).value, input.source, current, now,
                         session.date);
  }

  // ---------- The end of a session ----------

  /** A session that succeeds reconciles the book it executed. */
  lemma SessionEnds(b: Book, input: ReplayInput, previous: Session, session: Session)
    requires RunSession(b, input, previous, session).Ok?
    ensures Executed(b, input, previous, session).Ok?
    ensures var executed, now := Executed(b, input, previous, session).value, DecisionTime(session);
      var closed := Reconcile(executed, SelectSnapshot(input.source, now), now, input.universe);
      closed.Ok? && RunSession(b, input, previous, session).value
        == closed.value.(peak := RunSession(b, input, previous, session).value.peak)
  {
    hide Reconcile;
    hide Execute;
    hide OpenSession;
    hide ComputeNAV;
    hide SelectSnapshot;
  }

  lemma PeakKeepsNumbers(b: Book, peak: int, date: int)
    ensures SalesMatch(b) ==> SalesMatch(b.(peak := peak))
    ensures SoldOnce(b, date) ==> SoldOnce(b.(peak := peak), date)
  {
  }

  lemma SessionKeepsNumbers(b: Book, input: ReplayInput, previous: Session, session: Session)
    requires SalesMatch(b) && RunSession(b, input, previous, session).Ok?
    ensures SalesMatch(RunSession(b, input, previous, session).value)
    ensures SoldOnce(b, previous.date) && previous.date < session.date && SellsOnce(PlannedAt(b, input, previous))
        ==> SoldOnce(RunSession(b, input, previous, session).value, session.date)
  {
    hide SalesMatch;
    hide SoldOnce;
    hide SellsOnce;
    hide NoSale;
    hide RunSession;
    hide Executed;
    hide PlannedAt;
    hide Reconcile;
    hide SelectSnapshot;
    SessionEnds(b, input, previous, session);
    var executed, now := Executed(b, input, previous, session).value, DecisionTime(session);
    var current := SelectSnapshot(input.source, now);
    var closed := Reconcile(executed, current, now, input.universe).value;
    ExecutedMatches(b, input, previous, session);
    ReconcileKeepsMatch(executed, current, now, input.universe);
    PeakKeepsNumbers(closed, RunSession(b, input, previous, session).value.peak, session.date);
    if SoldOnce(b, previous.date) && previous.date < session.date && SellsOnce(PlannedAt(b, input, previous)) {
      ExecutedKeepsSoldOnce(b, input, previous, session);
      ReconcileKeepsSoldOnce(executed, current, now, input.universe, session.date);
    }
  }

  // ---------- Runs ----------

  /** No plan of the first `n` sessions sells a name twice. */
  ghost predicate PlansSellOnce(input: ReplayInput, days: seq<Session>, n: nat)
    requires n < |days|
  {
    n > 0 ==>
      && PlansSellOnce(input, days, n - 1)
      && (RunSessions(input, days, n - 1).Ok? ==>
            SellsOnce(PlannedAt(RunSessions(input, days, n - 1).value, input, days[n - 1])))
  }

  lemma NewBookNumbers(initialCash: int, date: int)
    ensures SalesMatch(NewBook(initialCash)) && SoldOnce(NewBook(initialCash), date)
  {
  }

  /** After every session of every replay that succeeds there are as many sales under a number as filled sells. */
  lemma {:induction false} RunKeepsNumbers(input: ReplayInput, days: seq<Session>, n: nat)
    requires n < |days| && RunSessions(input, days, n).Ok?
    ensures SalesMatch(RunSessions(input, days, n).value)
    ensures WellFormedDays(days) && PlansSellOnce(input, days, n) ==>
      SoldOnce(RunSessions(input, days, n).value, days[n].date)
  {
    hide SalesMatch;
    hide SoldOnce;
    hide SellsOnce;
    hide RunSession;
    hide PlannedAt;
    if n == 0 {
      NewBookNumbers(input.initialCash, days[0].date);
    } else {
      RunKeepsNumbers(input, days, n - 1);
      SessionKeepsNumbers(RunSessions(input, days, n - 1).value, input, days[n - 1], days[n]);
    }
  }

  /** When the orders of a session have been executed, the sales to be settled share no number if and only if no two
      sells were filled under one that is not settled yet; and they share none when no plan so far sold a name twice. */
  lemma SalesOfRun(input: ReplayInput, days: seq<Session>, n: nat)
    requires 0 < n < |days| && RunSessions(input, days, n - 1).Ok?
    requires Executed(RunSessions(input, days, n - 1).value, input, days[n - 1], days[n]).Ok?
    ensures var b := Executed(RunSessions(input, days, n - 1).value, input, days[n - 1], days[n]).value;
      && (DistinctKeys(Sales(b)) <==> FilledOnce(b))
      && (WellFormedDays(days) && PlansSellOnce(input, days, n) ==> DistinctKeys(Sales(b)))
  {
    hide SalesMatch;
    hide SoldOnce;
    hide SellsOnce;
    hide RunSessions;
    hide Executed;
    hide PlannedAt;
    hide Sales;
    hide DistinctKeys;
    hide FilledOnce;
    var before := RunSessions(input, days, n - 1).value;
    var b := Executed(before, input, days[n - 1], days[n]).value;
    RunKeepsNumbers(input, days, n - 1);
    ExecutedMatches(before, input, days[n - 1], days[n]);
    DistinctIffFilledOnce(b);
    if WellFormedDays(days) && PlansSellOnce(input, days, n) {
      ExecutedKeepsSoldOnce(before, input, days[n - 1], days[n]);
      OnceImpliesFilledOnce(b, days[n].date);
    }
  }

  /** If two sells are filled under one number in a session, the replay stops there. */
  lemma SharedNumberStops(input: ReplayInput, days: seq<Session>, n: nat)
    requires 0 < n < |days| && RunSessions(input, days, n - 1).Ok?
    requires Executed(RunSessions(input, days, n - 1).value, input, days[n - 1], days[n]).Ok?
    requires !FilledOnce(Executed(RunSessions(input, days, n - 1).value, input, days[n - 1], days[n]).value)
    ensures RunSessions(input, days, n).Err?
  {
    SalesOfRun(input, days, n);
    var before := RunSessions(input, days, n - 1).value;
    var b, now := Executed(before, input, days[n - 1], days[n]).value, DecisionTime(days[n]);
    hide Executed;
    hide FilledOnce;
    hide DistinctKeys;
    hide Sales;
    hide Reconcile;
    hide SelectSnapshot;
    hide RunSession;
    if RunSessions(input, days, n).Ok? {
      SessionEnds(before, input, days[n - 1], days[n]);
      StuckBookNeverReconciles(b, SelectSnapshot(input.source, now), now, input.universe);
    }
  }
}
