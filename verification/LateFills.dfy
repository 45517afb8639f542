// A replay order that misses its opening bar stays open for one more session, and an action that takes effect in
// between does not cancel it. A fill is recorded behind such an action only when a bar of the name is published late
// and an action of the name takes effect between the two openings.
module LateFills {
  import opened Money
  import opened Domain
  import opened Calendars
  import opened Lists
  import opened Sums
  import opened Ledger
  import opened Reservations
  import opened Snapshots
  import opened Risk
  import opened Rebalance
  import opened Execution
  import opened Replay
  import opened BookEvents
  import opened BookMeaning
  import opened LateBars

  // ---------- Fills in step with actions ----------

  /** No fill is recorded behind an action of its name that took effect after it. */
  predicate InStep(ledger: seq<LedgerEntry>) {
    forall i, j :: 0 <= i < j < |ledger| && ledger[i].key.ActionKey? && ledger[j].key.FillKey?
                   && ledger[i].instrument == ledger[j].instrument ==>
      ledger[i].effectiveAt <= ledger[j].effectiveAt
  }

  /** An action of the name has taken effect after an instant. */
  predicate Overtaken(ledger: seq<LedgerEntry>, id: int, at: int) {
    exists i :: 0 <= i < |ledger| && ledger[i].key.ActionKey? && ledger[i].instrument == id
                && ledger[i].effectiveAt > at
  }

  /** Entries that are no fills, or one fill no action has overtaken, leave the ledger in step. */
  lemma StaysInStep(ledger: seq<LedgerEntry>, after: seq<LedgerEntry>)
    requires InStep(ledger) && ledger <= after
    requires forall j :: |ledger| <= j < |after| && after[j].key.FillKey? ==>
      !Overtaken(after[..j], after[j].instrument, after[j].effectiveAt)
    ensures InStep(after)
  {
    forall i, j | 0 <= i < j < |after| && after[i].key.ActionKey? && after[j].key.FillKey?
                  && after[i].instrument == after[j].instrument
      ensures after[i].effectiveAt <= after[j].effectiveAt
    {
      if j < |ledger| {
        assert after[i] == ledger[i] && after[j] == ledger[j];
      } else {
        assert after[..j][i] == after[i];
      }
    }
  }

  lemma FillEntryOf(b: Book, n: nat, fill: Fill, partial: bool) returns (e: LedgerEntry)
    requires n < |b.orders| && CloseFilled(b, n, fill, partial).Ok?
    ensures CloseFilled(b, n, fill, partial).value.ledger == b.ledger + [e]
    ensures e.key == FillKey(fill.orderId) && e.instrument == fill.instrument && e.effectiveAt == fill.effectiveAt
    ensures e.kind == if fill.side == Buy then BuyFill else SellFill
  {
    hide GrossValue;
    hide ProportionalCost;
    hide SortPositions;
    hide ApplyDelta;
    e := ApplyFill(b.account, b.positions, fill).value.entries[0];
  }

  // ---------- Where actions come from ----------

  /** An action of the name, published in time, takes effect after one opening and by the next. */
  predicate ActsBetween(actions: seq<CorporateAction>, id: int, session: Session, next: Session) {
    exists k :: 0 <= k < |actions| && actions[k].instrument == id && actions[k].availableAt <= actions[k].effectiveAt
                && session.openAt < actions[k].effectiveAt <= next.openAt
  }

  /** A relevant name with a late bar for the session and an action that takes effect by the next opening. */
  predicate Exposed(source: Snapshot, relevant: set<int>, id: int, session: Session, next: Session) {
    id in relevant && LateBar(source.bars, id, session, next) && ActsBetween(source.actions, id, session, next)
  }

  /** An action entry stands for an action of the source, of a relevant name, published in time and in force by an
      instant. */
  predicate Traced(source: Snapshot, relevant: set<int>, e: LedgerEntry, t: int) {
    exists k :: 0 <= k < |source.actions| && e.instrument == source.actions[k].instrument
                && e.effectiveAt == source.actions[k].effectiveAt <= t
                && source.actions[k].availableAt <= source.actions[k].effectiveAt && e.instrument in relevant
  }

  predicate AllTraced(ledger: seq<LedgerEntry>, source: Snapshot, relevant: set<int>, t: int) {
    forall i :: 0 <= i < |ledger| && ledger[i].key.ActionKey? ==> Traced(source, relevant, ledger[i], t)
  }

  lemma TracedLater(ledger: seq<LedgerEntry>, source: Snapshot, relevant: set<int>, early: int, late: int)
    requires AllTraced(ledger, source, relevant, early) && early <= late
    ensures AllTraced(ledger, source, relevant, late)
  {
    forall i | 0 <= i < |ledger| && ledger[i].key.ActionKey?
      ensures Traced(source, relevant, ledger[i], late)
    {
      assert Traced(source, relevant, ledger[i], early);
      var e := ledger[i];
      var k :| 0 <= k < |source.actions| && e.instrument == source.actions[k].instrument
               && e.effectiveAt == source.actions[k].effectiveAt <= early
               && source.actions[k].availableAt <= source.actions[k].effectiveAt && e.instrument in relevant;
      assert e.effectiveAt == source.actions[k].effectiveAt <= late;
    }
  }

  // ---------- Reconciling ----------

  /** A reconciliation fills nothing, opens no order and keeps the terms of all. */
  predicate Reconciles(b: Book, after: Book, source: Snapshot, relevant: set<int>, now: int) {
    && |after.orders| == |b.orders| && b.ledger <= after.ledger
    && (forall n :: 0 <= n < |b.orders| ==>
          SameTerms(b.orders[n], after.orders[n]) && (b.orders[n].Terminal() ==> after.orders[n].Terminal()))
    && forall i :: |b.ledger| <= i < |after.ledger| ==>
         !after.ledger[i].key.FillKey?
           && (after.ledger[i].key.ActionKey? ==> Traced(source, relevant, after.ledger[i], now))
  }

  lemma ReconcilesThrough(a: Book, b: Book, c: Book, source: Snapshot, relevant: set<int>, now: int)
    requires Reconciles(a, b, source, relevant, now) && Reconciles(b, c, source, relevant, now)
    ensures Reconciles(a, c, source, relevant, now)
  {
    hide Traced;
  }

  lemma ReconcilesItself(b: Book, source: Snapshot, relevant: set<int>, now: int)
    ensures Reconciles(b, b, source, relevant, now)
  {
  }

  lemma {:induction false} SettlementKeys(account: Account, sales: seq<LedgerEntry>, calendar: Calendar, now: int)
    requires SettleReceivables(account, sales, calendar, now).Ok?
    ensures var entries := SettleReceivables(account, sales, calendar, now).value.entries;
      forall i :: 0 <= i < |entries| ==> entries[i].key.SettlementKey?
  {
    hide SettlementStart;
    hide ApplyDelta;
    if sales != [] {
      SettlementKeys(account, sales[..|sales| - 1], calendar, now);
    }
  }

  lemma SettleReconciles(b: Book, source: Snapshot, calendar: Calendar, relevant: set<int>, now: int)
    requires Settle(b, calendar, now).Ok?
    ensures Reconciles(b, Settle(b, calendar, now).value, source, relevant, now)
  {
    SettlementKeys(b.account, Sales(b), calendar, now);
    hide SettleReceivables;
    hide Traced;
  }

  lemma CloseReconciles(b: Book, n: nat, why: Reason, state: OrderState, now: int, source: Snapshot, relevant: set<int>)
    requires n < |b.orders| && CloseUnfilled(b, n, why, state, now).Ok? && state != Pending && state != AwaitingBar
    ensures Reconciles(b, CloseUnfilled(b, n, why, state, now).value, source, relevant, now)
  {
    hide ReleaseShares;
    hide ApplyDelta;
    hide Traced;
  }

  lemma {:induction false} CancelReconciles(b: Book, a: CorporateAction, n: nat, now: int, source: Snapshot,
                                            relevant: set<int>)
    requires n <= |b.orders| && CancelForSplit(b, a, n, now).Ok?
    ensures Reconciles(b, CancelForSplit(b, a, n, now).value, source, relevant, now)
  {
    hide CloseUnfilled;
    hide Reconciles;
    ReconcilesItself(b, source, relevant, now);
    if n > 0 {
      CancelReconciles(b, a, n - 1, now, source, relevant);
      var before := CancelForSplit(b, a, n - 1, now).value;
      if CancelledBySplit(before.orders[n - 1], a) {
        CloseReconciles(before, n - 1, SplitCancel, Cancelled, now, source, relevant);
        ReconcilesThrough(b, before, CancelForSplit(b, a, n, now).value, source, relevant, now);
      }
    }
  }

  lemma ActionReconciles(b: Book, a: CorporateAction, source: Snapshot, relevant: set<int>, now: int)
    requires ApplyAction(b, a).Ok? && a in source.actions && a.instrument in relevant
    requires a.availableAt <= a.effectiveAt <= now
    ensures Reconciles(b, ApplyAction(b, a).value, source, relevant, now)
  {
    var e := ActionRecord(b, a);
    var k :| 0 <= k < |source.actions| && source.actions[k] == a;
    assert Traced(source, relevant, e, now);
    hide ApplyCorporateAction;
    hide Eligibility;
    hide Traced;
  }

  lemma ActionRecord(b: Book, a: CorporateAction) returns (e: LedgerEntry)
    requires ApplyAction(b, a).Ok?
    ensures ApplyAction(b, a).value.ledger == b.ledger + [e] && ApplyAction(b, a).value.orders == b.orders
    ensures e.key == ActionKey(a.id) && e.instrument == a.instrument && e.effectiveAt == a.effectiveAt
  {
    hide ApplySplit;
    hide EligibleQuantity;
    hide Eligibility;
    hide GrossValue;
    hide ApplyDelta;
    e := ApplyCorporateAction(b.account, b.positions, a, Eligibility(b.ledger, a)).value.entries[0];
  }

  lemma PaymentReconciles(b: Book, a: CorporateAction, source: Snapshot, relevant: set<int>, now: int)
    requires PayAction(b, a, now).Ok?
    ensures Reconciles(b, PayAction(b, a, now).value, source, relevant, now)
  {
    hide FirstWithKey;
    hide ApplyDelta;
    hide Traced;
  }

  lemma OneReconciles(b: Book, a: CorporateAction, source: Snapshot, relevant: set<int>, now: int)
    requires ReconcileAction(b, a, now, relevant).Ok? && a in source.actions
    ensures Reconciles(b, ReconcileAction(b, a, now, relevant).value, source, relevant, now)
  {
    hide CancelForSplit;
    hide ApplyAction;
    hide PayAction;
    hide Reconciles;
    ReconcilesItself(b, source, relevant, now);
    if a.instrument in relevant && a.effectiveAt <= now {
      var taken := if a.id in b.applied then b else TakeAction(b, a, now).value;
      if a.id !in b.applied {
        var ready := if a.kind == Split then CancelForSplit(b, a, |b.orders|, now).value else b;
        if a.kind == Split {
          CancelReconciles(b, a, |b.orders|, now, source, relevant);
        }
        ActionReconciles(ready, a, source, relevant, now);
        ReconcilesThrough(b, ready, taken, source, relevant, now);
      }
      if a.kind == Dividend && a.id !in taken.paid && now >= a.payAt {
        PaymentReconciles(taken, a, source, relevant, now);
        ReconcilesThrough(b, taken, PayAction(taken, a, now).value, source, relevant, now);
      }
    }
  }

  lemma {:induction false} ActionsReconcile(b: Book, actions: seq<CorporateAction>, n: nat, source: Snapshot,
                                            relevant: set<int>, now: int)
    requires n <= |actions| && ReconcileActions(b, actions, n, now, relevant).Ok?
    requires forall a :: a in actions ==> a in source.actions
    ensures Reconciles(b, ReconcileActions(b, actions, n, now, relevant).value, source, relevant, now)
  {
    hide ReconcileAction;
    hide Reconciles;
    ReconcilesItself(b, source, relevant, now);
    if n > 0 {
      ActionsReconcile(b, actions, n - 1, source, relevant, now);
      var before := ReconcileActions(b, actions, n - 1, now, relevant).value;
      OneReconciles(before, actions[n - 1], source, relevant, now);
      ReconcilesThrough(b, before, ReconcileActions(b, actions, n, now, relevant).value, source, relevant, now);
    }
  }

  lemma ReconcileReconciles(b: Book, source: Snapshot, asOf: int, relevant: set<int>, now: int)
    requires Reconcile(b, SelectSnapshot(source, asOf), now, relevant).Ok?
    ensures Reconciles(b, Reconcile(b, SelectSnapshot(source, asOf), now, relevant).value, source, relevant, now)
  {
    var s := SelectSnapshot(source, asOf);
    var actions := Sort(s.actions, ByEffect());
    SelectedActions(source, asOf);
    forall a | a in actions
      ensures a in source.actions
    {
      SortKeepsElements(s.actions, ByEffect(), a);
    }
    hide SelectSnapshot;
    hide Sort;
    hide Settle;
    hide ReconcileActions;
    hide Reconciles;
    SettleReconciles(b, source, s.calendar, relevant, now);
    var settled := Settle(b, s.calendar, now).value;
    ActionsReconcile(settled, actions, |actions|, source, relevant, now);
    ReconcilesThrough(b, settled, Reconcile(b, s, now, relevant).value, source, relevant, now);
  }

  // ---------- Open orders ----------

  /** An order for the opening of a session, until the close of the session after it. */
  predicate For(o: Order, calendar: Calendar, session: Session) {
    && o.targetOpenAt == session.openAt
    && NextSession(calendar, session.closeAt).Ok? && o.expiresAt == NextSession(calendar, session.closeAt).value.closeAt
  }

  /** Every open order is for the session, and had no opening at its decision. */
  predicate AllWaiting(b: Book, source: Snapshot, session: Session) {
    forall n :: 0 <= n < |b.orders| && !b.orders[n].Terminal() ==>
      For(b.orders[n], source.calendar, session)
        && !HasOpening(SelectSnapshot(source, DecisionTime(session)), b.orders[n])
  }

  /** An order waits since the previous session; when `safe`, for a name that is not exposed. */
  predicate Late(o: Order, source: Snapshot, relevant: set<int>, previous: Session, session: Session, safe: bool) {
    && For(o, source.calendar, previous) && !HasOpening(SelectSnapshot(source, DecisionTime(previous)), o)
    && (safe ==> !Exposed(source, relevant, o.instrument, previous, session))
  }

  /** Every open order waits since the previous session, or is for this one. */
  predicate LateOrNew(b: Book, source: Snapshot, relevant: set<int>, previous: Session, session: Session, safe: bool) {
    forall n :: 0 <= n < |b.orders| && !b.orders[n].Terminal() ==>
      For(b.orders[n], source.calendar, session) || Late(b.orders[n], source, relevant, previous, session, safe)
  }

  lemma TermsKeepOpening(o: Order, p: Order, calendar: Calendar, session: Session, s: Snapshot)
    requires SameTerms(o, p)
    ensures For(p, calendar, session) == For(o, calendar, session) && HasOpening(s, p) == HasOpening(s, o)
  {
  }

  lemma ReconciledInStep(b: Book, after: Book, source: Snapshot, relevant: set<int>, before: int, now: int)
    requires Reconciles(b, after, source, relevant, now) && AllTraced(b.ledger, source, relevant, before)
    requires before <= now
    ensures AllTraced(after.ledger, source, relevant, now)
    ensures InStep(b.ledger) ==> InStep(after.ledger)
  {
    TracedLater(b.ledger, source, relevant, before, now);
    hide Traced;
    if InStep(b.ledger) {
      StaysInStep(b.ledger, after.ledger);
    }
  }

  lemma ReconciledWaits(b: Book, after: Book, source: Snapshot, relevant: set<int>, now: int, session: Session)
    requires Reconciles(b, after, source, relevant, now) && AllWaiting(b, source, session)
    ensures AllWaiting(after, source, session)
  {
    hide For;
    hide HasOpening;
    hide SelectSnapshot;
    hide Traced;
    var known := SelectSnapshot(source, DecisionTime(session));
    forall n | 0 <= n < |b.orders|
      ensures For(after.orders[n], source.calendar, session) == For(b.orders[n], source.calendar, session)
      ensures HasOpening(known, after.orders[n]) == HasOpening(known, b.orders[n])
    {
      TermsKeepOpening(b.orders[n], after.orders[n], source.calendar, session, known);
    }
  }

  lemma ReconciledIsLate(b: Book, after: Book, source: Snapshot, relevant: set<int>, now: int,
                         previous: Session, session: Session, safe: bool)
    requires Reconciles(b, after, source, relevant, now) && LateOrNew(b, source, relevant, previous, session, safe)
    ensures LateOrNew(after, source, relevant, previous, session, safe)
  {
    hide For;
    hide HasOpening;
    hide SelectSnapshot;
    hide Traced;
    hide Exposed;
    var known := SelectSnapshot(source, DecisionTime(previous));
    forall n | 0 <= n < |b.orders|
      ensures For(after.orders[n], source.calendar, previous) == For(b.orders[n], source.calendar, previous)
      ensures For(after.orders[n], source.calendar, session) == For(b.orders[n], source.calendar, session)
      ensures HasOpening(known, after.orders[n]) == HasOpening(known, b.orders[n])
    {
      TermsKeepOpening(b.orders[n], after.orders[n], source.calendar, previous, known);
      TermsKeepOpening(b.orders[n], after.orders[n], source.calendar, session, known);
    }
  }

  // ---------- Planning ----------

  predicate Reserving(e: LedgerEntry) {
    e.key.ReserveKey? && (e.kind == ReserveBuy || e.kind == ReserveSell)
  }

  /** What a plan adds: reservations, and orders for its opening. */
  predicate IssuedFor(b: Book, after: Book, target: Session, expiresAt: int) {
    && b.ledger <= after.ledger && (forall i :: |b.ledger| <= i < |after.ledger| ==> Reserving(after.ledger[i]))
    && b.orders <= after.orders
    && forall n :: |b.orders| <= n < |after.orders| ==>
         after.orders[n].targetOpenAt == target.openAt && after.orders[n].expiresAt == expiresAt
  }

  lemma ReserveEntryOf(b: Book, o: Order) returns (e: LedgerEntry)
    requires Issue(b, o).Ok?
    ensures Issue(b, o).value.ledger == b.ledger + [e] && Reserving(e) && Issue(b, o).value.orders == b.orders + [o]
  {
    SingleReservation(b.account, b.positions, o);
    hide ReserveOrders;
    hide ReserveShares;
    hide ApplyDelta;
    e := ReserveOne(b.account, b.positions, o).value.entries[0];
  }

  lemma SizedFor(s: Snapshot, target: Session, expiresAt: int, p: PlannedOrder, cash: int)
    requires SizeOrder(s, target, expiresAt, p, cash).Ok? && SizeOrder(s, target, expiresAt, p, cash).value.Some?
    ensures var o := SizeOrder(s, target, expiresAt, p, cash).value.value;
      o.targetOpenAt == target.openAt && o.expiresAt == expiresAt
  {
    hide PreviousVolumeCapacity;
    hide ReservationCost;
    hide Filter;
  }

  lemma {:induction false} IssuesFor(b: Book, s: Snapshot, target: Session, expiresAt: int, planned: seq<PlannedOrder>,
                                     n: nat)
    requires n <= |planned| && IssueOrders(b, s, target, expiresAt, planned, n).Ok?
    ensures IssuedFor(b, IssueOrders(b, s, target, expiresAt, planned, n).value.0, target, expiresAt)
  {
    hide SizeOrder;
    hide Issue;
    if n > 0 {
      IssuesFor(b, s, target, expiresAt, planned, n - 1);
      var (before, cash) := IssueOrders(b, s, target, expiresAt, planned, n - 1).value;
      var sized := SizeOrder(s, target, expiresAt, planned[n - 1], cash).value;
      if sized.Some? {
        SizedFor(s, target, expiresAt, planned[n - 1], cash);
        var e := ReserveEntryOf(before, sized.value);
      }
    }
  }

  lemma PlanIssuesFor(b: Book, s: Snapshot, input: ReplayInput, target: Session) returns (expiresAt: int)
    requires PlanSession(b, s, input, target).Ok?
    ensures IssuedFor(b, PlanSession(b, s, input, target).value, target, expiresAt)
    ensures PlanSession(b, s, input, target).value.orders != b.orders ==>
      NextSession(s.calendar, target.closeAt).Ok? && expiresAt == NextSession(s.calendar, target.closeAt).value.closeAt
  {
    hide BuildRebalance;
    hide ComputeNAV;
    hide EvaluationOf;
    hide IssueOrders;
    hide NextSession;
    expiresAt := 0;
    if b.account.automationEnabled && !Unresolved(b.orders) {
      var nav := ComputeNAV(b.account, b.positions, s, map[]).value;
      var plan := BuildRebalance(PlanInput(b, s, input, EvaluationOf(input, s).value, nav)).value;
      if !plan.pause {
        expiresAt := NextSession(s.calendar, target.closeAt).value.closeAt;
        IssuesFor(b, s, target, expiresAt, plan.orders, |plan.orders|);
      }
    }
  }

  lemma IssuedInStep(b: Book, after: Book, source: Snapshot, relevant: set<int>, t: int, target: Session,
                     expiresAt: int)
    requires IssuedFor(b, after, target, expiresAt) && AllTraced(b.ledger, source, relevant, t)
    ensures AllTraced(after.ledger, source, relevant, t) && (InStep(b.ledger) ==> InStep(after.ledger))
  {
    hide Traced;
    if InStep(b.ledger) {
      StaysInStep(b.ledger, after.ledger);
    }
  }

  /** After planning, every open order waits since the previous session or is for the one planned. */
  lemma IssuedIsLate(b: Book, after: Book, source: Snapshot, relevant: set<int>, previous: Session, target: Session,
                     expiresAt: int, safe: bool)
    requires IssuedFor(b, after, target, expiresAt) && AllWaiting(b, source, previous)
    requires after.orders != b.orders ==>
      NextSession(source.calendar, target.closeAt).Ok?
        && expiresAt == NextSession(source.calendar, target.closeAt).value.closeAt
    requires safe ==> b.orders == [] || forall id :: !Exposed(source, relevant, id, previous, target)
    ensures LateOrNew(after, source, relevant, previous, target, safe)
  {
    hide NextSession;
    hide HasOpening;
    hide SelectSnapshot;
    hide Exposed;
    forall n | 0 <= n < |after.orders| && !after.orders[n].Terminal()
      ensures For(after.orders[n], source.calendar, target)
        || Late(after.orders[n], source, relevant, previous, target, safe)
    {
      if n < |b.orders| {
        assert after.orders[n] == b.orders[n];
      } else {
        assert after.orders != b.orders;
      }
    }
  }

  // ---------- Executing ----------

  /** Half-way through an execution: the orders done so far are closed, or wait for the next session. */
  predicate Midway(b: Book, source: Snapshot, relevant: set<int>, previous: Session, session: Session, safe: bool,
                   n: nat) {
    && AllTraced(b.ledger, source, relevant, session.openAt) && (safe ==> InStep(b.ledger))
    && LateOrNew(b, source, relevant, previous, session, safe)
    && forall k :: 0 <= k < n && k < |b.orders| && !b.orders[k].Terminal() ==>
         For(b.orders[k], source.calendar, session)
           && !HasOpening(SelectSnapshot(source, DecisionTime(session)), b.orders[k])
  }

  /** What a step of an execution does to one order and to the ledger. */
  ghost predicate OneStep(b: Book, after: Book, n: nat)
    requires n < |b.orders|
  {
    && |after.orders| == |b.orders| && after.orders == b.orders[n := after.orders[n]]
    && SameTerms(b.orders[n], after.orders[n])
    && (after.ledger == b.ledger
        || exists e :: after.ledger == b.ledger + [e] && !e.key.ActionKey?
                       && e.kind != SplitAdjustment
                       && (e.kind == SellFill ==> e.key.FillKey? && b.orders[n].side == Sell)
                       && (e.key.FillKey? ==>
                             e.instrument == b.orders[n].instrument && e.effectiveAt == b.orders[n].targetOpenAt))
  }

  /** What executing one order does, seen from the order and the ledger. */
  ghost predicate Handled(b: Book, after: Book, current: Snapshot, n: nat, now: int)
    requires n < |b.orders|
  {
    var o := b.orders[n];
    && OneStep(b, after, n)
    && (o.Terminal() ==> after.orders[n].Terminal() && after.ledger == b.ledger)
    && (!o.Terminal() && now >= o.targetOpenAt && HasOpening(current, o) ==> after.orders[n].Terminal())
    && (!o.Terminal() && now >= o.targetOpenAt && now >= o.expiresAt ==> after.orders[n].Terminal())
    && (after.ledger != b.ledger && after.ledger[|b.ledger|].key.FillKey? ==> HasOpening(current, o))
  }

  lemma UnfilledStep(b: Book, n: nat, why: Reason, state: OrderState, now: int)
    requires n < |b.orders| && state != Pending && state != AwaitingBar && CloseUnfilled(b, n, why, state, now).Ok?
    ensures var after := CloseUnfilled(b, n, why, state, now).value;
      OneStep(b, after, n) && after.orders[n].Terminal() && after.ledger != b.ledger
        && !after.ledger[|b.ledger|].key.FillKey?
  {
    hide ReleaseShares;
    hide ApplyDelta;
    var e := ReleaseEntry(b.account, b.orders[n], Released(why), now);
    assert CloseUnfilled(b, n, why, state, now).value.ledger == b.ledger + [e];
  }

  lemma FilledStep(b: Book, n: nat, fill: Fill, partial: bool)
    requires n < |b.orders| && Closes(fill, b.orders[n]) && CloseFilled(b, n, fill, partial).Ok?
    ensures var after := CloseFilled(b, n, fill, partial).value; OneStep(b, after, n) && after.orders[n].Terminal()
  {
    var e := FillEntryOf(b, n, fill, partial);
    hide ApplyFill;
    assert CloseFilled(b, n, fill, partial).value.ledger == b.ledger + [e];
  }

  lemma MatchedStep(b: Book, n: nat, input: MatchInput, now: int)
    requires n < |b.orders| && input.order == b.orders[n]
    requires MatchAtOpen(input).Ok? && CloseMatched(b, n, MatchAtOpen(input).value, now).Ok?
    ensures var after := CloseMatched(b, n, MatchAtOpen(input).value, now).value;
      OneStep(b, after, n) && after.orders[n].Terminal()
  {
    var matched := MatchAtOpen(input).value;
    if matched.fill.Some? {
      MatchedFillIsAcceptable(input);
    }
    hide MatchAtOpen;
    hide CloseUnfilled;
    hide CloseFilled;
    hide OneStep;
    match matched.fill
    case None => UnfilledStep(b, n, Unmatched, Rejected, now);
    case Some(fill) => FilledStep(b, n, fill, matched.cancelledQuantity > 0);
  }

  /** A step from the advanced order is a step from the order. */
  lemma AdvancedStep(b: Book, after: Book, n: nat, now: int)
    requires n < |b.orders| && OneStep(Advance(b, n, now), after, n)
    ensures OneStep(b, after, n)
  {
  }

  lemma OpeningStep(b: Book, source: Snapshot, current: Snapshot, n: nat, now: int)
    requires n < |b.orders| && !b.orders[n].Terminal() && HasOpening(current, b.orders[n])
    requires b.orders[n].targetOpenAt <= now
    requires ExecuteOrder(b, source, current, n, now).Ok?
    ensures var after := ExecuteOrder(b, source, current, n, now).value;
      OneStep(b, after, n) && after.orders[n].Terminal()
  {
    var advanced, after := Advance(b, n, now), ExecuteOrder(b, source, current, n, now).value;
    var p := advanced.orders[n];
    assert HasOpening(current, p);
    var date := DateOf(p.targetOpenAt);
    var prior, prices := SelectSnapshot(source, p.targetOpenAt - 1), OpeningPrices(current.bars, date);
    var open, turnover := BarsOn(current.bars, date)[p.instrument].open,
                          Sum(advanced.fills, GrossFilled(p.targetOpenAt));
    hide SelectSnapshot;
    hide HasOpening;
    hide OneStep;
    hide MatchAtOpen;
    hide ComputeNAV;
    hide CloseMatched;
    var nav := ComputeNAV(advanced.account, advanced.positions, prior, prices).value;
    MatchedStep(advanced, n,
                MatchInput(p, open,
                           NotBelowZero(SmallestCapacity(advanced.orders, p)
                                        - Sum(advanced.fills, SharesFilled(p.targetOpenAt, p.instrument))),
                           PortfolioInput(advanced.account, advanced.positions, advanced.orders, prior,
                                          Evaluation(false, []), advanced.account.policy, nav, 0, turnover, prices,
                                          StrategyParameters([], 0.0, 0.0, 0.0, 0)),
                           now), now);
    AdvancedStep(b, after, n, now);
  }

  lemma ExecuteOrderHandles(b: Book, source: Snapshot, current: Snapshot, n: nat, now: int)
    requires n < |b.orders| && ExecuteOrder(b, source, current, n, now).Ok?
    ensures Handled(b, ExecuteOrder(b, source, current, n, now).value, current, n, now)
  {
    hide CloseUnfilled;
    hide OpeningMatch;
    hide CloseMatched;
    var o, after := b.orders[n], ExecuteOrder(b, source, current, n, now).value;
    if o.Terminal() || now < o.targetOpenAt {
      hide HasOpening;
      assert b.orders[n := b.orders[n]] == b.orders;
    } else if HasOpening(current, o) {
      hide HasOpening;
      OpeningStep(b, source, current, n, now);
    } else {
      var advanced := Advance(b, n, now);
      assert !HasOpening(current, advanced.orders[n]);
      hide HasOpening;
      if now >= o.expiresAt {
        UnfilledStep(advanced, n, DataUnavailable, Expired, now);
        AdvancedStep(b, after, n, now);
      }
    }
  }

  /** A fill at the opening of the session is behind no action taken so far: none has taken effect since. */
  lemma NotOvertaken(ledger: seq<LedgerEntry>, source: Snapshot, relevant: set<int>, id: int, t: int)
    requires AllTraced(ledger, source, relevant, t)
    ensures !Overtaken(ledger, id, t)
  {
  }

  /** A late order is overtaken only by an action that takes effect by the opening of the session. */
  lemma OvertakenActs(ledger: seq<LedgerEntry>, source: Snapshot, relevant: set<int>, id: int, previous: Session,
                      session: Session)
    requires AllTraced(ledger, source, relevant, session.openAt) && Overtaken(ledger, id, previous.openAt)
    ensures id in relevant && ActsBetween(source.actions, id, previous, session)
  {
    var i :| 0 <= i < |ledger| && ledger[i].key.ActionKey? && ledger[i].instrument == id
             && ledger[i].effectiveAt > previous.openAt;
    assert Traced(source, relevant, ledger[i], session.openAt);
  }

  /** A late order that finds its opening is overtaken only when its name is exposed. */
  lemma LateIsExposed(b: Book, source: Snapshot, relevant: set<int>, previous: Session, session: Session, safe: bool,
                      o: Order)
    requires AllTraced(b.ledger, source, relevant, session.openAt) && Late(o, source, relevant, previous, session, safe)
    requires HasOpening(SelectSnapshot(source, DecisionTime(session)), o) && o.expiresAt <= session.closeAt
    requires DecisionTime(previous) <= DecisionTime(session)
    ensures safe ==> !Overtaken(b.ledger, o.instrument, o.targetOpenAt)
  {
    hide HasOpening;
    hide SelectSnapshot;
    LateOpeningIsLateBar(source, previous, session, DecisionTime(session), o);
    if Overtaken(b.ledger, o.instrument, o.targetOpenAt) {
      OvertakenActs(b.ledger, source, relevant, o.instrument, previous, session);
    }
  }

  /** Orders of the previous session expire by the close of this one. */
  predicate ExpiresBy(calendar: Calendar, previous: Session, session: Session) {
    && previous.openAt < session.openAt <= session.closeAt && previous.closeAt <= session.closeAt
    && (NextSession(calendar, previous.closeAt).Ok? ==>
          NextSession(calendar, previous.closeAt).value.closeAt <= session.closeAt)
  }

  lemma StepInStep(b: Book, after: Book, source: Snapshot, relevant: set<int>, t: int, n: nat)
    requires n < |b.orders| && OneStep(b, after, n) && AllTraced(b.ledger, source, relevant, t)
    ensures AllTraced(after.ledger, source, relevant, t)
    ensures InStep(b.ledger) && (after.ledger != b.ledger && after.ledger[|b.ledger|].key.FillKey? ==>
        !Overtaken(b.ledger, b.orders[n].instrument, b.orders[n].targetOpenAt)) ==>
      InStep(after.ledger)
  {
    hide Traced;
    hide Overtaken;
    if after.ledger != b.ledger {
      var e :| after.ledger == b.ledger + [e] && !e.key.ActionKey?
               && (e.key.FillKey? ==>
                     e.instrument == b.orders[n].instrument && e.effectiveAt == b.orders[n].targetOpenAt);
      assert after.ledger[..|b.ledger|] == b.ledger;
      if InStep(b.ledger)
         && (e.key.FillKey? ==> !Overtaken(b.ledger, b.orders[n].instrument, b.orders[n].targetOpenAt)) {
        StaysInStep(b.ledger, after.ledger);
      }
    }
  }

  /** No order that is filled now has been overtaken, unless its name is exposed. */
  lemma FilledInStep(b: Book, source: Snapshot, relevant: set<int>, previous: Session, session: Session, safe: bool,
                     n: nat)
    requires n < |b.orders| && ExpiresBy(source.calendar, previous, session) && !b.orders[n].Terminal()
    requires Midway(b, source, relevant, previous, session, safe, n)
    requires HasOpening(SelectSnapshot(source, DecisionTime(session)), b.orders[n])
    ensures safe ==> !Overtaken(b.ledger, b.orders[n].instrument, b.orders[n].targetOpenAt)
  {
    hide HasOpening;
    hide SelectSnapshot;
    hide NextSession;
    hide AllTraced;
    hide Overtaken;
    hide InStep;
    hide Exposed;
    var o := b.orders[n];
    if For(o, source.calendar, session) {
      NotOvertaken(b.ledger, source, relevant, o.instrument, session.openAt);
    } else {
      LateIsExposed(b, source, relevant, previous, session, safe, o);
    }
  }

  lemma HandledKeepsMidway(b: Book, after: Book, source: Snapshot, relevant: set<int>, previous: Session,
                           session: Session, safe: bool, n: nat)
    requires n < |b.orders| && ExpiresBy(source.calendar, previous, session)
    requires Midway(b, source, relevant, previous, session, safe, n)
    requires Handled(b, after, SelectSnapshot(source, DecisionTime(session)), n, DecisionTime(session))
    ensures Midway(after, source, relevant, previous, session, safe, n + 1)
  {
    var current, o := SelectSnapshot(source, DecisionTime(session)), b.orders[n];
    hide HasOpening;
    hide SelectSnapshot;
    hide NextSession;
    hide AllTraced;
    hide Overtaken;
    hide InStep;
    hide Exposed;
    if !o.Terminal() && HasOpening(current, o) {
      FilledInStep(b, source, relevant, previous, session, safe, n);
    }
    StepInStep(b, after, source, relevant, session.openAt, n);
    TermsKeepOpening(o, after.orders[n], source.calendar, previous, SelectSnapshot(source, DecisionTime(previous)));
    TermsKeepOpening(o, after.orders[n], source.calendar, session, current);
  }

  lemma {:induction false} ExecutedMidway(b: Book, source: Snapshot, relevant: set<int>, previous: Session,
                                          session: Session, safe: bool, n: nat)
    requires n <= |b.orders| && ExpiresBy(source.calendar, previous, session)
    requires Midway(b, source, relevant, previous, session, safe, 0)
    requires ExecuteOrders(b, source, SelectSnapshot(source, DecisionTime(session)), n, DecisionTime(session)).Ok?
    ensures Midway(ExecuteOrders(b, source, SelectSnapshot(source, DecisionTime(session)), n,
                                 DecisionTime(session)).value,
                   source, relevant, previous, session, safe, n)
  {
    hide Midway;
    hide ExecuteOrder;
    hide SelectSnapshot;
    hide Handled;
    hide ExpiresBy;
    if n > 0 {
      var now, current := DecisionTime(session), SelectSnapshot(source, DecisionTime(session));
      ExecutedMidway(b, source, relevant, previous, session, safe, n - 1);
      var before := ExecuteOrders(b, source, current, n - 1, now).value;
      ExecuteOrderHandles(before, source, current, n - 1, now);
      HandledKeepsMidway(before, ExecuteOrder(before, source, current, n - 1, now).value, source, relevant, previous,
                         session, safe, n - 1);
    }
  }

  lemma SortedIsLate(b: Book, source: Snapshot, relevant: set<int>, previous: Session, session: Session, safe: bool)
    requires LateOrNew(b, source, relevant, previous, session, safe)
    ensures LateOrNew(b.(orders := Sort(b.orders, ByOpening())), source, relevant, previous, session, safe)
  {
    hide For;
    hide Late;
    var sorted := Sort(b.orders, ByOpening());
    forall n | 0 <= n < |sorted| && !sorted[n].Terminal()
      ensures For(sorted[n], source.calendar, session) || Late(sorted[n], source, relevant, previous, session, safe)
    {
      SortKeepsElements(b.orders, ByOpening(), sorted[n]);
      var m :| 0 <= m < |b.orders| && b.orders[m] == sorted[n];
    }
  }

  /** After an execution every open order is for the session and waits for its opening. */
  lemma ExecuteInStep(b: Book, source: Snapshot, relevant: set<int>, previous: Session, session: Session, safe: bool)
    requires ExpiresBy(source.calendar, previous, session)
    requires AllTraced(b.ledger, source, relevant, session.openAt) && (safe ==> InStep(b.ledger))
    requires LateOrNew(b, source, relevant, previous, session, safe)
    requires Execute(b, source, SelectSnapshot(source, DecisionTime(session)), DecisionTime(session)).Ok?
    ensures var after := Execute(b, source, SelectSnapshot(source, DecisionTime(session)), DecisionTime(session)).value;
      AllTraced(after.ledger, source, relevant, session.openAt) && (safe ==> InStep(after.ledger))
        && AllWaiting(after, source, session)
  {
    hide Sort;
    hide LateOrNew;
    hide For;
    hide HasOpening;
    hide InStep;
    hide AllTraced;
    hide SelectSnapshot;
    hide ExpiresBy;
    var sorted := b.(orders := Sort(b.orders, ByOpening()));
    SortedIsLate(b, source, relevant, previous, session, safe);
    ExecutedMidway(sorted, source, relevant, previous, session, safe, |sorted.orders|);
    hide ExecuteOrders;
  }
}
