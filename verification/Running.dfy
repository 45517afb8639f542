/** Whole runs: what holds after every session of every replay that succeeds. */
module Running {
  import opened Calendars
  import opened Sums
  import opened Snapshots
  import opened Risk
  import opened Replay
  import opened BookMeaning
  import opened Causality
  import opened Reconciling
  import opened Planning
  import opened Executing

  /** Sessions follow one another: each opens after the decision time of the previous one, on a later date. */
  predicate WellFormedDays(days: seq<Session>) {
    && (forall n :: 0 <= n < |days| ==> days[n].openAt <= days[n].closeAt)
    && (forall n :: 0 < n < |days| ==> DecisionTime(days[n - 1]) < days[n].openAt && days[n - 1].date < days[n].date)
  }

  /** Settlement waits for a later midnight, and the versions of an action either say the same or supersede one
      another. */
  ghost predicate WellFormedSource(source: Snapshot) {
    SettlesAtMidnight(source.calendar) && Coherent(source.actions)
  }

  ghost predicate AtClose(b: Book, input: ReplayInput, day: Session) {
    && Causal(b, DecisionTime(day)) && OpenAreUnfilled(b) && Moved(b, DecisionTime(day))
    && AlwaysReady(b, input.source, input.universe, DecisionTime(day))
    && Numbered(b, day.date, day.openAt) && WithinCapacity(b)
  }

  /** Between planning and execution. */
  ghost predicate AtOpen(b: Book, input: ReplayInput, decisionAt: int, day: Session) {
    && Causal(b, decisionAt) && OpenAreUnfilled(b) && Moved(b, decisionAt)
    && AlwaysReady(b, input.source, input.universe, decisionAt)
    && Numbered(b, day.date, day.openAt) && WithinCapacity(b)
  }

  lemma MovedLater(b: Book, early: int, late: int)
    requires Moved(b, early) && early <= late
    ensures Moved(b, late)
  {
  }

  lemma OpenSessionKeeps(b: Book, input: ReplayInput, previous: Session, session: Session)
    requires WellFormedSource(input.source) && AtClose(b, input, previous)
    requires previous.openAt <= previous.closeAt && DecisionTime(previous) < session.openAt
    requires previous.date < session.date
    requires OpenSession(b, input, previous, session).Ok?
    ensures AtOpen(OpenSession(b, input, previous, session).value, input, DecisionTime(previous), session)
    ensures OpenSession(b, input, previous, session).value.account.initialCash == b.account.initialCash
  {
    var decisionAt := DecisionTime(previous);
    var decision := SelectSnapshot(input.source, decisionAt);
    assert decision.asOf == decisionAt;
    hide SelectSnapshot;
    hide Causal;
    hide OpenAreUnfilled;
    hide Reconcile;
    hide PlanSession;
    hide Numbered;
    hide WithinCapacity;
    ReconcileKeeps(b, input.source, decisionAt, decisionAt, input.universe);
    var reconciled := Reconcile(b, decision, decisionAt, input.universe).value;
    ExtendsKeepsNumbers(b, reconciled, previous.date, previous.openAt);
    TakenIsReady(reconciled, input.source, input.universe, decisionAt, decisionAt);
    PlanKeeps(reconciled, previous.date, previous.openAt, decision, input, session);
    var planned := PlanSession(reconciled, decision, input, session).value;
    NothingMovedKeeps(reconciled, planned, decisionAt);
    SameReadiness(reconciled, planned, input.source, input.universe, decisionAt);
  }

  /** A book in which nothing moved and nothing was taken is as ready as before. */
  lemma SameReadiness(b: Book, after: Book, source: Snapshot, relevant: set<int>, seen: int)
    requires AlwaysReady(b, source, relevant, seen) && NothingMoved(b, after) && after.applied == b.applied
    ensures AlwaysReady(after, source, relevant, seen)
  {
    hide SelectSnapshot;
    hide NothingMoved;
    forall t, a | t >= seen && a in SelectSnapshot(source, t).actions && Takeable(after, a, relevant)
      ensures Moved(after, a.effectiveAt)
    {
      NothingMovedKeeps(b, after, a.effectiveAt);
    }
  }

  lemma ReadyLater(b: Book, source: Snapshot, relevant: set<int>, early: int, late: int)
    requires AlwaysReady(b, source, relevant, early) && early <= late
    ensures AlwaysReady(b, source, relevant, late)
  {
    hide SelectSnapshot;
  }

  lemma PeakKeepsCausal(b: Book, now: int, peak: int)
    requires Causal(b, now)
    ensures Causal(b.(peak := peak), now)
  {
    var after := b.(peak := peak);
    forall cutoff
      ensures CoveredAt(after, cutoff)
    {
      assert CoveredAt(b, cutoff);
    }
    hide CoveredAt;
    hide NeverNegative;
    hide Sum;
    hide FoldEntries;
  }

  lemma PeakKeepsRecords(b: Book, date: int, lastOpen: int, peak: int)
    requires OpenAreUnfilled(b) && Numbered(b, date, lastOpen) && WithinCapacity(b)
    ensures var after := b.(peak := peak);
      OpenAreUnfilled(after) && Numbered(after, date, lastOpen) && WithinCapacity(after)
  {
    var after := b.(peak := peak);
    hide Sum;
    forall n | 0 <= n < |after.orders|
      ensures CapacityKept(after, after.orders[n])
    {
      assert CapacityKept(b, b.orders[n]);
    }
  }

  lemma PeakKeepsMoves(b: Book, source: Snapshot, relevant: set<int>, seen: int, peak: int)
    requires AlwaysReady(b, source, relevant, seen)
    ensures AlwaysReady(b.(peak := peak), source, relevant, seen)
    ensures forall t :: Moved(b.(peak := peak), t) == Moved(b, t)
  {
    hide SelectSnapshot;
  }

  lemma PeakKeeps(b: Book, input: ReplayInput, day: Session, peak: int)
    requires AtClose(b, input, day)
    ensures AtClose(b.(peak := peak), input, day)
  {
    hide Causal;
    hide OpenAreUnfilled;
    hide Numbered;
    hide WithinCapacity;
    hide AlwaysReady;
    hide Moved;
    PeakKeepsCausal(b, DecisionTime(day), peak);
    PeakKeepsRecords(b, day.date, day.openAt, peak);
    PeakKeepsMoves(b, input.source, input.universe, DecisionTime(day), peak);
  }

  lemma CloseSessionKeeps(b: Book, input: ReplayInput, decisionAt: int, session: Session)
    requires WellFormedSource(input.source) && AtOpen(b, input, decisionAt, session)
    requires session.openAt <= session.closeAt && decisionAt < session.openAt
    requires CloseSession(b, input, session).Ok?
    ensures AtClose(CloseSession(b, input, session).value, input, session)
    ensures CloseSession(b, input, session).value.account.initialCash == b.account.initialCash
  {
    var now := DecisionTime(session);
    var current := SelectSnapshot(input.source, now);
    hide SelectSnapshot;
    hide Causal;
    hide OpenAreUnfilled;
    hide Reconcile;
    hide Execute;
    hide Numbered;
    hide WithinCapacity;
    hide ComputeNAV;
    CausalLater(b, decisionAt, session.openAt);
    MovedLater(b, decisionAt, session.openAt);
    ReadyLater(b, input.source, input.universe, decisionAt, now);
    ReconcileKeeps(b, input.source, now, session.openAt, input.universe);
    var atOpen := Reconcile(b, current, session.openAt, input.universe).value;
    ExtendsKeepsNumbers(b, atOpen, session.date, session.openAt);
    CausalLater(atOpen, session.openAt, now);
    ExecuteKeeps(atOpen, input.source, current, now, session.date, session.openAt);
    var executed := Execute(atOpen, input.source, current, now).value;
    TakenIsReady(executed, input.source, input.universe, now, session.openAt);
    MovedLater(executed, session.openAt, now);
    ReconcileKeeps(executed, input.source, now, now, input.universe);
    var closed := Reconcile(executed, current, now, input.universe).value;
    ExtendsKeepsNumbers(executed, closed, session.date, session.openAt);
    TakenIsReady(closed, input.source, input.universe, now, now);
    PeakKeeps(closed, input, session, CloseSession(b, input, session).value.peak);
  }

  lemma {:induction false} RunKeeps(input: ReplayInput, days: seq<Session>, n: nat)
    requires n < |days| && WellFormedDays(days) && WellFormedSource(input.source)
    requires 0 < input.initialCash <= MAX_INITIAL_CASH
    requires RunSessions(input, days, n).Ok?
    ensures AtClose(RunSessions(input, days, n).value, input, days[n])
    ensures RunSessions(input, days, n).value.account.initialCash == input.initialCash
  {
    hide AtClose;
    hide AtOpen;
    hide OpenSession;
    hide CloseSession;
    if n == 0 {
      NewBookAtClose(input, days[0]);
    } else {
      RunKeeps(input, days, n - 1);
      var before := RunSessions(input, days, n - 1).value;
      OpenSessionKeeps(before, input, days[n - 1], days[n]);
      var planned := OpenSession(before, input, days[n - 1], days[n]).value;
      CloseSessionKeeps(planned, input, DecisionTime(days[n - 1]), days[n]);
    }
  }

  lemma NewBookAtClose(input: ReplayInput, day: Session)
    requires 0 < input.initialCash <= MAX_INITIAL_CASH
    ensures AtClose(NewBook(input.initialCash), input, day)
  {
    NewBookIsCausal(input.initialCash, DecisionTime(day));
    NewBookIsSound(input.initialCash);
  }
}
