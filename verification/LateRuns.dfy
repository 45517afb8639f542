/** When the fills of a replay fall out of step with the actions of their names. */
module LateRuns {
  import opened Outcomes
  import opened Calendars
  import opened Snapshots
  import opened Risk
  import opened Replay
  import opened Admission
  import opened LateFills

  // ---------- Sessions ----------

  /** At a decision: every open order waits for the opening of the session, and every action taken is one of the
      source. */
  predicate Decided(b: Book, input: ReplayInput, session: Session) {
    AllWaiting(b, input.source, session) && AllTraced(b.ledger, input.source, input.universe, DecisionTime(session))
  }

  /** Between planning and execution. */
  predicate Planned(b: Book, input: ReplayInput, previous: Session, session: Session, safe: bool) {
    && AllTraced(b.ledger, input.source, input.universe, DecisionTime(previous)) && (safe ==> InStep(b.ledger))
    && LateOrNew(b, input.source, input.universe, previous, session, safe)
  }

  lemma OpenedInStep(b: Book, input: ReplayInput, previous: Session, session: Session, safe: bool)
    requires OpenSession(b, input, previous, session).Ok? && Decided(b, input, previous) && (safe ==> InStep(b.ledger))
    requires safe ==> b.orders == [] || forall id :: !Exposed(input.source, input.universe, id, previous, session)
    ensures Planned(OpenSession(b, input, previous, session).value, input, previous, session, safe)
  {
    var decisionAt := DecisionTime(previous);
    var decision := SelectSnapshot(input.source, decisionAt);
    assert decision.calendar == input.source.calendar;
    hide SelectSnapshot;
    hide Reconcile;
    hide PlanSession;
    hide NextSession;
    hide AllWaiting;
    hide AllTraced;
    hide InStep;
    hide LateOrNew;
    hide Exposed;
    var reconciled := Reconcile(b, decision, decisionAt, input.universe).value;
    ReconcileReconciles(b, input.source, decisionAt, input.universe, decisionAt);
    ReconciledInStep(b, reconciled, input.source, input.universe, decisionAt, decisionAt);
    ReconciledWaits(b, reconciled, input.source, input.universe, decisionAt, previous);
    var expiresAt := PlanIssuesFor(reconciled, decision, input, session);
    var planned := PlanSession(reconciled, decision, input, session).value;
    IssuedInStep(reconciled, planned, input.source, input.universe, decisionAt, session, expiresAt);
    IssuedIsLate(reconciled, planned, input.source, input.universe, previous, session, expiresAt, safe);
  }

  lemma ClosedInStep(b: Book, input: ReplayInput, previous: Session, session: Session, safe: bool)
    requires CloseSession(b, input, session).Ok? && Planned(b, input, previous, session, safe)
    requires ExpiresBy(input.source.calendar, previous, session) && DecisionTime(previous) <= session.openAt
    ensures var closed := CloseSession(b, input, session).value;
      Decided(closed, input, session) && (safe ==> InStep(closed.ledger))
  {
    var now, source := DecisionTime(session), input.source;
    var current := SelectSnapshot(source, now);
    hide SelectSnapshot;
    hide Reconcile;
    hide Execute;
    hide ComputeNAV;
    hide AllWaiting;
    hide AllTraced;
    hide InStep;
    hide LateOrNew;
    var atOpen := Reconcile(b, current, session.openAt, input.universe).value;
    ReconcileReconciles(b, source, now, input.universe, session.openAt);
    ReconciledInStep(b, atOpen, source, input.universe, DecisionTime(previous), session.openAt);
    ReconciledIsLate(b, atOpen, source, input.universe, session.openAt, previous, session, safe);
    ExecuteInStep(atOpen, source, input.universe, previous, session, safe);
    var executed := Execute(atOpen, source, current, now).value;
    ReconcileReconciles(executed, source, now, input.universe, now);
    var closed := Reconcile(executed, current, now, input.universe).value;
    ReconciledInStep(executed, closed, source, input.universe, session.openAt, now);
    ReconciledWaits(executed, closed, source, input.universe, now, session);
    PeakWaits(closed, source, session, CloseSession(b, input, session).value.peak);
  }

  lemma PeakWaits(b: Book, source: Snapshot, session: Session, peak: int)
    requires AllWaiting(b, source, session)
    ensures AllWaiting(b.(peak := peak), source, session)
  {
    hide For;
    hide HasOpening;
    hide SelectSnapshot;
  }

  // ---------- Runs ----------

  /** The session after one of the calendar closes no later than any listed session that follows it. */
  lemma NextClosesFirst(calendar: Calendar, previous: Session, session: Session)
    requires Spaced(calendar.sessions) && session in calendar.sessions && Proper(previous) && Before(previous, session)
    ensures ExpiresBy(calendar, previous, session)
  {
    EarliestAfterIsEarliest(calendar.sessions, previous.closeAt);
    assert Proper(session);
    if NextSession(calendar, previous.closeAt).Ok? {
      var next := NextSession(calendar, previous.closeAt).value;
      assert next in calendar.sessions;
      var i, j :| 0 <= i < |calendar.sessions| && calendar.sessions[i] == next && 0 <= j < |calendar.sessions|
                  && calendar.sessions[j] == session;
      assert next == session || Before(next, session) || Before(session, next);
      assert Proper(next);
    }
  }

  /** A session of a replay at which a relevant name has a late bar, and acts by the next opening. */
  predicate ExposedAt(input: ReplayInput, days: seq<Session>, k: int, id: int) {
    0 < k < |days| - 1 && Exposed(input.source, input.universe, id, days[k], days[k + 1])
  }

  ghost predicate Safe(input: ReplayInput, days: seq<Session>, n: nat) {
    forall k, id :: k < n ==> !ExposedAt(input, days, k, id)
  }

  lemma DaysExpire(input: ReplayInput, days: seq<Session>, n: nat)
    requires 0 < n < |days| && Chain(days) && Spaced(input.source.calendar.sessions)
    requires forall s :: s in days ==> s in input.source.calendar.sessions
    ensures ExpiresBy(input.source.calendar, days[n - 1], days[n]) && DecisionTime(days[n - 1]) <= days[n].openAt
  {
    assert days[n - 1] in days && days[n] in days;
    assert Before(days[n - 1], days[n]);
    hide ExpiresBy;
    NextClosesFirst(input.source.calendar, days[n - 1], days[n]);
  }

  lemma {:induction false} RunStaysInStep(input: ReplayInput, days: seq<Session>, n: nat)
    requires n < |days| && Chain(days) && Spaced(input.source.calendar.sessions) && RunSessions(input, days, n).Ok?
    requires forall s :: s in days ==> s in input.source.calendar.sessions
    ensures var b := RunSessions(input, days, n).value;
      Decided(b, input, days[n]) && (n == 0 ==> b.orders == []) && (Safe(input, days, n) ==> InStep(b.ledger))
  {
    hide OpenSession;
    hide CloseSession;
    hide Chain;
    hide Spaced;
    hide ExpiresBy;
    hide Exposed;
    if n > 0 {
      hide Decided;
      hide InStep;
      RunStaysInStep(input, days, n - 1);
      var before, safe := RunSessions(input, days, n - 1).value, Safe(input, days, n);
      DaysExpire(input, days, n);
      var previous := days[n - 1];
      if safe && n > 1 {
        forall id
          ensures !Exposed(input.source, input.universe, id, previous, days[n])
        {
          assert !ExposedAt(input, days, n - 1, id);
        }
      }
      OpenedInStep(before, input, days[n - 1], days[n], safe);
      ClosedInStep(OpenSession(before, input, days[n - 1], days[n]).value, input, days[n - 1], days[n], safe);
    }
  }

  /** The fills of an admitted replay over a spaced calendar are in step with the actions of their names, unless for
      some session a name of the universe has a bar published after the decision of that session and an action that
      takes effect after its opening and by the next one. */
  lemma OutOfStepIsExposed(input: ReplayInput, days: seq<Session>, n: nat)
    requires Spaced(input.source.calendar.sessions) && Admit(input) == Ok(days) && n < |days|
    requires RunSessions(input, days, n).Ok?
    ensures !InStep(RunSessions(input, days, n).value.ledger) ==> exists k, id :: k < n && ExposedAt(input, days, k, id)
  {
    hide *;
    AdmittedDays(input);
    RunStaysInStep(input, days, n);
    assert !Safe(input, days, n) ==> exists k, id :: k < n && ExposedAt(input, days, k, id) by {
      SafeOrExposed(input, days, n);
    }
  }

  lemma SafeOrExposed(input: ReplayInput, days: seq<Session>, n: nat)
    ensures Safe(input, days, n) || exists k, id :: k < n && ExposedAt(input, days, k, id)
  {
    hide ExposedAt;
  }
}
