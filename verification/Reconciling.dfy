/** A reconciliation keeps the meaning of a book and catches up with every action in force. */
module Reconciling {
  import opened Outcomes
  import opened Domain
  import opened Calendars
  import opened Lists
  import opened Snapshots
  import opened Replay
  import opened BookEvents
  import opened BookMeaning
  import opened Causality

  /** What a reconciliation may do to orders and records: close orders, and record entries that are not fills. */
  ghost predicate Extends(b: Book, after: Book) {
    && |after.orders| == |b.orders|
    && (forall n :: 0 <= n < |b.orders| ==> SameTerms(b.orders[n], after.orders[n]))
    && (forall n :: 0 <= n < |b.orders| && b.orders[n].Terminal() ==> after.orders[n].Terminal())
    && after.fills == b.fills
    && after.account.automationEnabled == b.account.automationEnabled
    && after.account.initialCash == b.account.initialCash
    && b.applied.Keys <= after.applied.Keys
    && |b.ledger| <= |after.ledger| && after.ledger[..|b.ledger|] == b.ledger
    && (forall i :: |b.ledger| <= i < |after.ledger| ==> !after.ledger[i].key.FillKey?)
    && (forall k :: k in after.settled && k.FillKey? ==> k in b.settled || Recorded(b.ledger, k))
  }

  predicate Recorded(ledger: seq<LedgerEntry>, k: EventKey) {
    exists i :: 0 <= i < |ledger| && ledger[i].key == k
  }

  lemma ExtendsIsTransitive(a: Book, b: Book, c: Book)
    requires Extends(a, b) && Extends(b, c)
    ensures Extends(a, c)
  {
    assert c.ledger[..|a.ledger|] == c.ledger[..|b.ledger|][..|a.ledger|];
    forall i | |a.ledger| <= i < |c.ledger|
      ensures !c.ledger[i].key.FillKey?
    {
      if i < |b.ledger| {
        assert c.ledger[i] == b.ledger[i];
      }
    }
    forall k | k in c.settled && k.FillKey?
      ensures k in a.settled || Recorded(a.ledger, k)
    {
      if k !in b.settled {
        var i :| 0 <= i < |b.ledger| && b.ledger[i].key == k;
        assert i < |a.ledger|;
        assert a.ledger[i] == b.ledger[..|a.ledger|][i];
      }
    }
    forall n | 0 <= n < |a.orders|
      ensures SameTerms(a.orders[n], c.orders[n]) && (a.orders[n].Terminal() ==> c.orders[n].Terminal())
    {
      assert SameTerms(a.orders[n], b.orders[n]) && SameTerms(b.orders[n], c.orders[n]);
    }
  }

  lemma ExtendsKeepsUnfilled(b: Book, after: Book)
    requires Extends(b, after) && OpenAreUnfilled(b)
    ensures OpenAreUnfilled(after)
  {
    forall n, i | 0 <= n < |after.orders| && 0 <= i < |after.ledger| && !after.orders[n].Terminal()
      ensures after.ledger[i].key != FillKey(after.orders[n].id)
    {
      assert SameTerms(b.orders[n], after.orders[n]);
      if i < |b.ledger| {
        assert after.ledger[i] == after.ledger[..|b.ledger|][i];
      }
    }
  }

  /** No share moved: any bound on the movements so far still holds. */
  predicate NothingMoved(b: Book, after: Book) {
    && after.account.initialCash == b.account.initialCash
    && |b.ledger| <= |after.ledger| && after.ledger[..|b.ledger|] == b.ledger
    && forall i :: |b.ledger| <= i < |after.ledger| ==> after.ledger[i].quantityDelta == 0
  }

  lemma NothingMovedKeeps(b: Book, after: Book, t: int)
    requires NothingMoved(b, after) && Moved(b, t)
    ensures Moved(after, t)
  {
    forall i | 0 <= i < |after.ledger| && after.ledger[i].quantityDelta != 0
      ensures after.ledger[i].effectiveAt <= t
    {
      assert after.ledger[i] == after.ledger[..|b.ledger|][i];
    }
  }

  // ---------- Splits cancel orders ----------

  lemma CloseExtends(b: Book, n: nat, why: Reason, state: OrderState, now: int)
    requires BackedBook(b) && n < |b.orders| && !b.orders[n].Terminal()
    requires state != Pending && state != AwaitingBar
    requires CloseUnfilled(b, n, why, state, now).Ok?
    ensures var after := CloseUnfilled(b, n, why, state, now).value;
      Extends(b, after) && NothingMoved(b, after) && after.applied == b.applied && after.paid == b.paid
  {
    ReleasePosts(b, n, why, state, now);
    hide CloseUnfilled;
    hide BackedBook;
  }

  lemma {:induction false} CancelKeepsCausal(b: Book, a: CorporateAction, n: nat, now: int)
    requires n <= |b.orders| && Causal(b, now)
    requires CancelForSplit(b, a, n, now).Ok?
    ensures var after := CancelForSplit(b, a, n, now).value;
      Causal(after, now) && Extends(b, after) && NothingMoved(b, after) && after.applied == b.applied
        && after.paid == b.paid
  {
    hide CloseUnfilled;
    if n > 0 {
      CancelKeepsCausal(b, a, n - 1, now);
      var before := CancelForSplit(b, a, n - 1, now).value;
      assert BackedBook(before);
      hide Causal;
      if CancelledBySplit(before.orders[n - 1], a) {
        ReleaseKeepsCausal(before, n - 1, SplitCancel, Cancelled, now);
        CloseExtends(before, n - 1, SplitCancel, Cancelled, now);
        var after := CloseUnfilled(before, n - 1, SplitCancel, Cancelled, now).value;
        ExtendsIsTransitive(b, before, after);
        NothingMovedIsTransitive(b, before, after);
      }
    }
  }

  lemma NothingMovedIsTransitive(a: Book, b: Book, c: Book)
    requires NothingMoved(a, b) && NothingMoved(b, c)
    ensures NothingMoved(a, c)
  {
    assert c.ledger[..|a.ledger|] == c.ledger[..|b.ledger|][..|a.ledger|];
    forall i | |a.ledger| <= i < |c.ledger|
      ensures c.ledger[i].quantityDelta == 0
    {
      if i < |b.ledger| {
        assert c.ledger[i] == b.ledger[i];
      }
    }
  }

  // ---------- One action ----------

  /** The only movement is one effective when the action is. */
  ghost predicate MovedBy(b: Book, after: Book, a: CorporateAction) {
    forall t :: Moved(b, t) && a.effectiveAt <= t ==> Moved(after, t)
  }

  lemma ApplyActionEffect(b: Book, a: CorporateAction, now: int)
    requires Causal(b, now) && a.id !in b.applied && a.effectiveAt <= now && Moved(b, a.effectiveAt)
    requires ApplyAction(b, a).Ok?
    ensures var after := ApplyAction(b, a).value;
      Causal(after, now) && Extends(b, after) && MovedBy(b, after, a) && after.applied == b.applied[a.id := a]
        && after.paid == b.paid
  {
    ActionKeepsCausal(b, a, now);
    ActionPosts(b, a);
    hide ApplyAction;
    hide Causal;
    hide BackedBook;
  }

  lemma TakeActionEffect(b: Book, a: CorporateAction, now: int)
    requires Causal(b, now) && a.id !in b.applied && a.effectiveAt <= now && Moved(b, a.effectiveAt)
    requires TakeAction(b, a, now).Ok?
    ensures var after := TakeAction(b, a, now).value;
      Causal(after, now) && Extends(b, after) && MovedBy(b, after, a) && after.applied == b.applied[a.id := a]
        && after.paid == b.paid
  {
    var ready := if a.kind == Split then CancelForSplit(b, a, |b.orders|, now).value else b;
    assert BackedBook(b);
    hide Causal;
    if a.kind == Split {
      CancelKeepsCausal(b, a, |b.orders|, now);
    }
    hide CancelForSplit;
    hide ApplyAction;
    NothingMovedKeeps(b, ready, a.effectiveAt);
    ApplyActionEffect(ready, a, now);
    var after := ApplyAction(ready, a).value;
    ExtendsIsTransitive(b, ready, after);
    forall t | Moved(b, t) && a.effectiveAt <= t
      ensures Moved(after, t)
    {
      NothingMovedKeeps(b, ready, t);
    }
  }

  lemma PayActionEffect(b: Book, a: CorporateAction, now: int)
    requires Causal(b, now) && a.id in b.applied && SameActionEconomics(b.applied[a.id], a) && a.kind == Dividend
    requires a.id !in b.paid
    requires PayAction(b, a, now).Ok?
    ensures var after := PayAction(b, a, now).value;
      Causal(after, now) && Extends(b, after) && NothingMoved(b, after) && after.applied == b.applied
  {
    PaymentKeepsCausal(b, a, now);
    var _ := PaymentPosts(b, a, now);
    hide PayAction;
    hide Causal;
    hide BackedBook;
  }

  /** An action that is in force and has been published in time. */
  predicate InForce(a: CorporateAction, relevant: set<int>, now: int) {
    a.instrument in relevant && a.availableAt <= a.effectiveAt <= now
  }

  lemma ReconcileActionEffect(b: Book, a: CorporateAction, now: int, relevant: set<int>)
    requires Causal(b, now) && (InForce(a, relevant, now) && a.id !in b.applied ==> Moved(b, a.effectiveAt))
    requires ReconcileAction(b, a, now, relevant).Ok?
    ensures var after := ReconcileAction(b, a, now, relevant).value;
      && Causal(after, now) && Extends(b, after) && MovedBy(b, after, a)
      && after.applied.Keys
         == b.applied.Keys + (if a.instrument in relevant && a.effectiveAt <= now then {a.id} else {})
  {
    hide Causal;
    hide TakeAction;
    hide PayAction;
    if a.instrument in relevant && a.effectiveAt <= now {
      if a.id !in b.applied {
        assert a.availableAt <= a.effectiveAt by { TakenInTime(b, a, now); }
        TakeActionEffect(b, a, now);
      }
      var taken := if a.id in b.applied then b else TakeAction(b, a, now).value;
      if a.kind == Dividend && a.id !in taken.paid && now >= a.payAt {
        PayActionEffect(taken, a, now);
        var after := PayAction(taken, a, now).value;
        ExtendsIsTransitive(b, taken, after);
        forall t | Moved(b, t) && a.effectiveAt <= t
          ensures Moved(after, t)
        {
          NothingMovedKeeps(taken, after, t);
        }
      }
    }
  }

  lemma TakenInTime(b: Book, a: CorporateAction, now: int)
    requires TakeAction(b, a, now).Ok?
    ensures a.availableAt <= a.effectiveAt
  {
  }

  // ---------- All actions ----------

  /** An action published in time and still to be taken. */
  predicate Takeable(b: Book, a: CorporateAction, relevant: set<int>) {
    a.instrument in relevant && a.availableAt <= a.effectiveAt && a.id !in b.applied
  }

  /** Shares move no later than any action still to be taken. */
  ghost predicate Ready(b: Book, actions: seq<CorporateAction>, relevant: set<int>) {
    forall a :: a in actions && Takeable(b, a, relevant) ==> Moved(b, a.effectiveAt)
  }

  /** Every action effective by an instant has been taken, whenever it was published. */
  predicate AllTaken(b: Book, actions: seq<CorporateAction>, relevant: set<int>, now: int) {
    forall a :: a in actions && a.instrument in relevant && a.effectiveAt <= now ==> a.id in b.applied
  }

  /** Shares move no later than any action that may still be taken, whatever is selected from an instant on. */
  ghost predicate AlwaysReady(b: Book, source: Snapshot, relevant: set<int>, seen: int) {
    forall t, a :: t >= seen && a in SelectSnapshot(source, t).actions && Takeable(b, a, relevant) ==>
      Moved(b, a.effectiveAt)
  }

  /** A version selected later is either published later, and so effective later, or says what one already selected
      says. */
  lemma TakenIsReady(b: Book, source: Snapshot, relevant: set<int>, asOf: int, now: int)
    requires AllTaken(b, SelectSnapshot(source, asOf).actions, relevant, now) && Moved(b, now) && now <= asOf
    requires Coherent(source.actions)
    ensures AlwaysReady(b, source, relevant, asOf)
  {
    forall t, a | t >= asOf && a in SelectSnapshot(source, t).actions && Takeable(b, a, relevant)
      ensures Moved(b, a.effectiveAt)
    {
      if a.availableAt <= asOf {
        StillSelected(source, asOf, t, a);
        var s :| s in SelectSnapshot(source, asOf).actions && s.id == a.id && SameActionEconomics(s, a);
      }
    }
  }

  function EffectKey(): CorporateAction -> int {
    (a: CorporateAction) => a.effectiveAt
  }

  lemma {:induction false} ReconcileActionsEffect(b: Book, actions: seq<CorporateAction>, n: nat, now: int,
                                                  relevant: set<int>)
    requires n <= |actions| && Ascending(actions, EffectKey())
    requires Causal(b, now) && Moved(b, now) && Ready(b, actions, relevant)
    requires ReconcileActions(b, actions, n, now, relevant).Ok?
    ensures var after := ReconcileActions(b, actions, n, now, relevant).value;
      && Causal(after, now) && Extends(b, after) && Moved(after, now)
      && Ready(after, actions[n..], relevant)
      && AllTaken(after, actions[..n], relevant, now)
  {
    hide ReconcileAction;
    hide Causal;
    if n == 0 {
      assert actions[0..] == actions;
    } else {
      ReconcileActionsEffect(b, actions, n - 1, now, relevant);
      var before := ReconcileActions(b, actions, n - 1, now, relevant).value;
      var a := actions[n - 1];
      assert a in actions[n - 1..] by { assert actions[n - 1..][0] == a; }
      ReconcileActionEffect(before, a, now, relevant);
      var after := ReconcileAction(before, a, now, relevant).value;
      ExtendsIsTransitive(b, before, after);
      if a.effectiveAt > now {
        UntouchedAction(before, a, now, relevant);
      }
      forall x | x in actions[n..] && Takeable(after, x, relevant)
        ensures Moved(after, x.effectiveAt)
      {
        var k :| 0 <= k < |actions[n..]| && actions[n..][k] == x;
        assert actions[n - 1..][k + 1] == x;
        assert EffectKey()(a) <= EffectKey()(actions[n + k]);
      }
      forall x | x in actions[..n] && x.instrument in relevant && x.effectiveAt <= now
        ensures x.id in after.applied
      {
        var k :| 0 <= k < n && actions[k] == x;
        if k < n - 1 {
          assert actions[..n - 1][k] == x;
        }
      }
    }
  }

  lemma UntouchedAction(b: Book, a: CorporateAction, now: int, relevant: set<int>)
    requires a.effectiveAt > now
    ensures ReconcileAction(b, a, now, relevant) == Ok(b)
  {
  }

  lemma CausalLater(b: Book, early: int, late: int)
    requires Causal(b, early) && early <= late
    ensures Causal(b, late)
  {
    hide Sound;
    hide CoveredAt;
    hide NeverNegative;
    hide Dated;
  }

  lemma SettleEffect(b: Book, calendar: Calendar, now: int)
    requires Causal(b, now) && OpenAreUnfilled(b) && SettlesAtMidnight(calendar)
    requires Settle(b, calendar, now).Ok?
    ensures var after := Settle(b, calendar, now).value;
      Causal(after, now) && OpenAreUnfilled(after) && Extends(b, after) && NothingMoved(b, after)
        && after.applied == b.applied
  {
    SettleKeepsCausal(b, calendar, now);
    assert BackedBook(b);
    hide Causal;
    hide OpenAreUnfilled;
    SettledExtends(b, calendar, now);
  }

  lemma SettledExtends(b: Book, calendar: Calendar, now: int)
    requires BackedBook(b) && Settle(b, calendar, now).Ok?
    ensures var after := Settle(b, calendar, now).value;
      Extends(b, after) && NothingMoved(b, after) && after.applied == b.applied
  {
    hide Settle;
    hide SettlesCash;
    hide SettledKeys;
    hide IsDue;
    SettlementIsSettledBook(b, calendar, now);
    hide BackedBook;
    var m := Ledger.SettleReceivables(b.account, Sales(b), calendar, now).value;
    SettlementShape(b, Sales(b), calendar, now, m);
    forall k | k in SettledKeys(m.entries)
      ensures Recorded(b.ledger, k)
    {
      assert IsSettledOf(Sales(b), calendar, now, k);
      var i :| 0 <= i < |Sales(b)| && Sales(b)[i].key == k && IsDue(calendar, now, Sales(b)[i]);
      FilterKeeps(b.ledger, AwaitingSettlement(b.settled), Sales(b)[i]);
      var j :| 0 <= j < |b.ledger| && b.ledger[j] == Sales(b)[i];
      assert b.ledger[j].key == k;
    }
    hide SettlesKeys;
    hide Filter;
    forall i | |b.ledger| <= i < |b.ledger + m.entries|
      ensures !(b.ledger + m.entries)[i].key.FillKey? && (b.ledger + m.entries)[i].quantityDelta == 0
    {
      assert SettlementLike(m.entries[i - |b.ledger|], now);
    }
  }

  /** The actions of a reconciliation come in order of effect and are those selected at its cutoff. */
  lemma OrderedActions(source: Snapshot, asOf: int) returns (actions: seq<CorporateAction>)
    ensures actions == Sort(SelectSnapshot(source, asOf).actions, ByEffect())
    ensures Ascending(actions, EffectKey())
    ensures forall a :: a in actions <==> a in SelectSnapshot(source, asOf).actions
  {
    var s := SelectSnapshot(source, asOf);
    actions := Sort(s.actions, ByEffect());
    SortAscends(s.actions, ByEffect(), EffectKey());
    forall a
      ensures a in actions <==> a in s.actions
    {
      SortKeepsElements(s.actions, ByEffect(), a);
    }
  }

  /** A reconciliation that succeeds keeps the invariant, and afterwards every relevant action it selected that is
      effective by now has been taken. */
  lemma ReconcileKeeps(b: Book, source: Snapshot, asOf: int, now: int, relevant: set<int>)
    requires Causal(b, now) && OpenAreUnfilled(b) && Moved(b, now) && AlwaysReady(b, source, relevant, asOf)
    requires SettlesAtMidnight(source.calendar)
    requires Reconcile(b, SelectSnapshot(source, asOf), now, relevant).Ok?
    ensures var after := Reconcile(b, SelectSnapshot(source, asOf), now, relevant).value;
      && Causal(after, now) && OpenAreUnfilled(after) && Moved(after, now) && Extends(b, after)
      && AllTaken(after, SelectSnapshot(source, asOf).actions, relevant, now)
  {
    hide Causal;
    hide Settle;
    hide OpenAreUnfilled;
    hide ReconcileActions;
    hide Sort;
    hide Moved;
    hide Ascending;
    var s := SelectSnapshot(source, asOf);
    var actions := OrderedActions(source, asOf);
    assert s.calendar == source.calendar;
    hide SelectSnapshot;
    SettleEffect(b, s.calendar, now);
    var settled := Settle(b, s.calendar, now).value;
    hide Extends;
    hide NothingMoved;
    NothingMovedKeeps(b, settled, now);
    forall a | a in actions && Takeable(settled, a, relevant)
      ensures Moved(settled, a.effectiveAt)
    {
      NothingMovedKeeps(b, settled, a.effectiveAt);
    }
    ReconcileActionsEffect(settled, actions, |actions|, now, relevant);
    assert actions[..|actions|] == actions;
    var after := ReconcileActions(settled, actions, |actions|, now, relevant).value;
    ExtendsIsTransitive(b, settled, after);
    ExtendsKeepsUnfilled(settled, after);
  }
}
