/** A split is refused while a sell of its name waits for an earlier opening, so no sell is ever filled behind a
    split. */
module WaitingSells {
  import opened Money
  import opened Domain
  import opened Calendars
  import opened Lists
  import opened Sums
  import opened Holdings
  import opened Ledger
  import opened Reservations
  import opened Snapshots
  import opened Replay
  import opened BookEvents
  import opened BookMeaning
  import opened Reconciling

  // ---------- One split ----------

  predicate OpenSell(o: Order, id: int) {
    !o.Terminal() && o.side == Sell && o.instrument == id
  }

  /** An open sell of the name of an action for an opening before it takes effect. */
  predicate WaitingSell(o: Order, a: CorporateAction) {
    OpenSell(o, a.instrument) && o.targetOpenAt < a.effectiveAt
  }

  predicate NoOpenSell(orders: seq<Order>, id: int) {
    forall n :: 0 <= n < |orders| ==> !OpenSell(orders[n], id)
  }

  /** Shares of a name are reserved exactly when a sell of it is open. */
  lemma ReservedIsOpenSell(b: Book, id: int)
    requires BackedBook(b)
    ensures Reserved(b.positions, id) == 0 <==> NoOpenSell(b.orders, id)
  {
    assert Reserved(b.positions, id) == Sum(b.orders, SharesHeld(id));
    hide Reserved;
    if NoOpenSell(b.orders, id) {
      SumIsZero(b.orders, SharesHeld(id));
    } else {
      var n :| 0 <= n < |b.orders| && OpenSell(b.orders[n], id);
      assert SoundOrder(b.account.id, b.orders[n]);
      TermWithinSum(b.orders, n, SharesHeld(id));
    }
  }

  /** A split is taken only when no sell of its name is open. */
  lemma SplitNeedsFreeShares(b: Book, a: CorporateAction)
    requires BackedBook(b) && a.kind == Split && ApplyAction(b, a).Ok?
    ensures NoOpenSell(b.orders, a.instrument)
  {
    var n := IndexOf(b.positions, a.instrument);
    if n == |b.positions| {
      NoRowTotals(b.positions, a.instrument);
    } else {
      RowTotals(b.positions, n);
    }
    hide SplitRow;
    hide Reserved;
    hide Held;
    hide Sum;
    assert n == |b.positions| || b.positions[n].reservedQuantity == 0;
    ReservedIsOpenSell(b, a.instrument);
  }

  /** Cancelling for a split closes the orders it invalidates and touches no other. */
  lemma {:induction false} CancelledForSplit(b: Book, a: CorporateAction, n: nat, now: int)
    requires n <= |b.orders| && BackedBook(b) && CancelForSplit(b, a, n, now).Ok?
    ensures var after := CancelForSplit(b, a, n, now).value;
      && BackedBook(after) && after.applied == b.applied && after.paid == b.paid
      && b.ledger <= after.ledger && (forall i :: |b.ledger| <= i < |after.ledger| ==> after.ledger[i].kind.Released?)
      && forall m :: 0 <= m < |b.orders| ==>
           after.orders[m] == if m < n
             && CancelledBySplit(b.orders[m], a) then b.orders[m].(state := Cancelled) else b.orders[m]
  {
    hide CloseUnfilled;
    hide BackedBook;
    if n > 0 {
      CancelledForSplit(b, a, n - 1, now);
      var before := CancelForSplit(b, a, n - 1, now).value;
      if CancelledBySplit(before.orders[n - 1], a) {
        ReleasePosts(before, n - 1, SplitCancel, Cancelled, now);
      }
    }
  }

  /** After the cancellations a sell of the name is open if and only if one was waiting for an earlier opening. */
  lemma LeftOpenIffWaiting(b: Book, a: CorporateAction, now: int)
    requires BackedBook(b) && CancelForSplit(b, a, |b.orders|, now).Ok?
    ensures NoOpenSell(CancelForSplit(b, a, |b.orders|, now).value.orders, a.instrument)
       <==> forall m :: 0 <= m < |b.orders| ==> !WaitingSell(b.orders[m], a)
  {
    CancelledForSplit(b, a, |b.orders|, now);
    var after := CancelForSplit(b, a, |b.orders|, now).value;
    hide BackedBook;
    hide CancelForSplit;
    forall m | 0 <= m < |b.orders|
      ensures OpenSell(after.orders[m], a.instrument) <==> WaitingSell(b.orders[m], a)
    {
    }
  }

  /** A split that has to be taken while a sell of its name waits for an earlier opening stops the reconciliation. */
  lemma WaitingSellStopsSplit(b: Book, m: nat, a: CorporateAction, now: int, relevant: set<int>)
    requires BackedBook(b) && m < |b.orders| && WaitingSell(b.orders[m], a) && a.kind == Split
    requires a.instrument in relevant && a.effectiveAt <= now && a.id !in b.applied
    ensures ReconcileAction(b, a, now, relevant).Err?
  {
    hide BackedBook;
    if ReconcileAction(b, a, now, relevant).Ok? {
      CancelledForSplit(b, a, |b.orders|, now);
      LeftOpenIffWaiting(b, a, now);
      SplitNeedsFreeShares(CancelForSplit(b, a, |b.orders|, now).value, a);
    }
  }

  // ---------- One action ----------

  /** What taking or paying one action does: orders it cancels are closed, and what was taken stays taken. */
  predicate Steps(b: Book, after: Book, a: CorporateAction, relevant: set<int>) {
    && |after.orders| == |b.orders| && b.ledger <= after.ledger
    && (forall n :: 0 <= n < |b.orders| && after.orders[n] != b.orders[n] ==>
          after.orders[n].Terminal() && Takeable(b, a, relevant) && a.kind == Split && CancelledBySplit(b.orders[n], a))
    && (forall id :: id in b.applied ==> id in after.applied && after.applied[id] == b.applied[id])
    && (forall id :: id in after.applied ==> id in b.applied || id == a.id)
  }

  /** Every split recorded from an index on took effect by the opening of every sell of its name still open. */
  predicate SellsAhead(b: Book, from: nat) {
    forall n, i :: 0 <= n < |b.orders| && from <= i < |b.ledger| && b.ledger[i].kind == SplitAdjustment
                   && OpenSell(b.orders[n], b.ledger[i].instrument) ==>
      b.ledger[i].effectiveAt <= b.orders[n].targetOpenAt
  }

  /** The entry of an action: a split is recorded as one. */
  predicate RecordOf(e: LedgerEntry, a: CorporateAction) {
    e.instrument == a.instrument && e.effectiveAt == a.effectiveAt && (a.kind == Split ==> e.kind == SplitAdjustment)
  }

  predicate RecordedFrom(ledger: seq<LedgerEntry>, a: CorporateAction, from: nat) {
    exists i :: from <= i < |ledger| && RecordOf(ledger[i], a)
  }

  /** Every action taken, but those taken before, is recorded from an index on. */
  predicate Entered(b: Book, before: set<int>, from: nat) {
    forall id :: id in b.applied && id !in before ==> RecordedFrom(b.ledger, b.applied[id], from)
  }

  lemma StillRecorded(ledger: seq<LedgerEntry>, after: seq<LedgerEntry>, a: CorporateAction, from: nat)
    requires RecordedFrom(ledger, a, from) && ledger <= after
    ensures RecordedFrom(after, a, from)
  {
    var i :| from <= i < |ledger| && RecordOf(ledger[i], a);
    assert after[i] == ledger[i];
  }

  lemma StillAhead(b: Book, after: Book, from: nat)
    requires SellsAhead(b, from) && |after.orders| == |b.orders| && b.ledger <= after.ledger
    requires forall n :: 0 <= n < |b.orders| && after.orders[n] != b.orders[n] ==> after.orders[n].Terminal()
    requires forall i :: |b.ledger| <= i < |after.ledger| && after.ledger[i].kind == SplitAdjustment ==>
      NoOpenSell(after.orders, after.ledger[i].instrument)
    ensures SellsAhead(after, from)
  {
    forall n, i | 0 <= n < |after.orders| && from <= i < |after.ledger| && after.ledger[i].kind == SplitAdjustment
                  && OpenSell(after.orders[n], after.ledger[i].instrument)
      ensures after.ledger[i].effectiveAt <= after.orders[n].targetOpenAt
    {
      if i < |b.ledger| {
        assert after.ledger[i] == b.ledger[i] && after.orders[n] == b.orders[n];
      }
    }
  }

  /** A backed book whose open sells wait for no split. */
  ghost predicate Free(b: Book, before: set<int>, from: nat) {
    BackedBook(b) && from <= |b.ledger| && SellsAhead(b, from) && Entered(b, before, from)
  }

  lemma ApplyKeepsFree(b: Book, a: CorporateAction, before: set<int>, from: nat)
    requires Free(b, before, from) && ApplyAction(b, a).Ok? && a.id !in b.applied
    ensures var after := ApplyAction(b, a).value;
      && Free(after, before, from) && after.orders == b.orders && b.ledger <= after.ledger
      && after.applied == b.applied[a.id := a]
  {
    ActionPosts(b, a);
    if a.kind == Split {
      SplitNeedsFreeShares(b, a);
    }
    hide ApplyAction;
    hide BackedBook;
    var after := ApplyAction(b, a).value;
    var last := |b.ledger|;
    assert after.ledger[last] == after.ledger[|after.ledger| - 1];
    StillAhead(b, after, from);
    forall id | id in after.applied && id !in before
      ensures RecordedFrom(after.ledger, after.applied[id], from)
    {
      if id == a.id {
        assert RecordOf(after.ledger[last], a);
      } else {
        StillRecorded(b.ledger, after.ledger, b.applied[id], from);
      }
    }
  }

  /** Entries other than actions taken leave the sells free. */
  lemma QuietKeepsFree(b: Book, after: Book, before: set<int>, from: nat)
    requires Free(b, before, from) && BackedBook(after) && |after.orders| == |b.orders| && b.ledger <= after.ledger
    requires after.applied == b.applied
    requires forall n :: 0 <= n < |b.orders| && after.orders[n] != b.orders[n] ==> after.orders[n].Terminal()
    requires forall i :: |b.ledger| <= i < |after.ledger| ==> after.ledger[i].kind != SplitAdjustment
    ensures Free(after, before, from)
  {
    hide BackedBook;
    StillAhead(b, after, from);
    forall id | id in after.applied && id !in before
      ensures RecordedFrom(after.ledger, after.applied[id], from)
    {
      StillRecorded(b.ledger, after.ledger, b.applied[id], from);
    }
  }

  lemma TakeKeepsFree(b: Book, a: CorporateAction, now: int, relevant: set<int>, before: set<int>, from: nat)
    requires Free(b, before, from) && TakeAction(b, a, now).Ok? && a.id !in b.applied && a.instrument in relevant
    ensures var after := TakeAction(b, a, now).value;
      Free(after, before, from) && Steps(b, after, a, relevant) && after.applied == b.applied[a.id := a]
  {
    hide BackedBook;
    var ready := if a.kind == Split then CancelForSplit(b, a, |b.orders|, now).value else b;
    if a.kind == Split {
      CancelledForSplit(b, a, |b.orders|, now);
      QuietKeepsFree(b, ready, before, from);
    }
    hide CancelForSplit;
    hide Free;
    hide ApplyAction;
    ApplyKeepsFree(ready, a, before, from);
  }

  lemma PayKeepsFree(b: Book, a: CorporateAction, now: int, before: set<int>, from: nat)
    requires Free(b, before, from) && PayAction(b, a, now).Ok?
    ensures var after := PayAction(b, a, now).value;
      Free(after, before, from) && after.orders == b.orders && b.ledger <= after.ledger && after.applied == b.applied
  {
    var i := PaymentPosts(b, a, now);
    hide PayAction;
    hide BackedBook;
    QuietKeepsFree(b, PayAction(b, a, now).value, before, from);
  }

  /** In force, an action is taken; what was taken under its number says the same. */
  predicate TakenAs(b: Book, a: CorporateAction, relevant: set<int>, now: int) {
    a.instrument in relevant && a.effectiveAt <= now ==> a.id in b.applied && SameActionEconomics(b.applied[a.id], a)
  }

  lemma ActionKeepsFree(b: Book, a: CorporateAction, now: int, relevant: set<int>, before: set<int>, from: nat)
    requires Free(b, before, from) && ReconcileAction(b, a, now, relevant).Ok?
    ensures var after := ReconcileAction(b, a, now, relevant).value;
      Free(after, before, from) && Steps(b, after, a, relevant) && TakenAs(after, a, relevant, now)
  {
    hide Free;
    hide TakeAction;
    hide PayAction;
    if a.instrument in relevant && a.effectiveAt <= now {
      if a.id !in b.applied {
        TakeKeepsFree(b, a, now, relevant, before, from);
      }
      var taken := if a.id in b.applied then b else TakeAction(b, a, now).value;
      if a.kind == Dividend && a.id !in taken.paid && now >= a.payAt {
        PayKeepsFree(taken, a, now, before, from);
      }
    }
  }

  // ---------- All actions ----------

  /** An order changes only when a split that has not been taken, effective by its opening, cancels it. */
  predicate OnlyCancels(b: Book, after: Book, actions: seq<CorporateAction>, relevant: set<int>) {
    && |after.orders| == |b.orders| && b.ledger <= after.ledger
    && (forall id :: id in b.applied ==> id in after.applied && after.applied[id] == b.applied[id])
    && forall n :: 0 <= n < |b.orders| && after.orders[n] != b.orders[n] ==>
         after.orders[n].Terminal()
         && exists a :: a in actions && Takeable(b, a, relevant) && a.kind == Split && CancelledBySplit(b.orders[n], a)
  }

  lemma CancelsOn(b: Book, mid: Book, after: Book, actions: seq<CorporateAction>, a: CorporateAction,
                  relevant: set<int>)
    requires OnlyCancels(b, mid, actions, relevant) && Steps(mid, after, a, relevant) && a in actions
    ensures OnlyCancels(b, after, actions, relevant)
  {
    forall n | 0 <= n < |b.orders| && after.orders[n] != b.orders[n]
      ensures after.orders[n].Terminal()
      ensures exists x :: x in actions && Takeable(b, x, relevant) && x.kind == Split
                          && CancelledBySplit(b.orders[n], x)
    {
      if mid.orders[n] == b.orders[n] {
        assert Takeable(b, a, relevant) && CancelledBySplit(b.orders[n], a);
      }
    }
  }

  lemma {:induction false} ActionsKeepFree(b: Book, actions: seq<CorporateAction>, n: nat, now: int, relevant: set<int>,
                                           before: set<int>, from: nat)
    requires n <= |actions| && Free(b, before, from) && ReconcileActions(b, actions, n, now, relevant).Ok?
    ensures var after := ReconcileActions(b, actions, n, now, relevant).value;
      && Free(after, before, from) && OnlyCancels(b, after, actions, relevant)
      && forall k :: 0 <= k < n ==> TakenAs(after, actions[k], relevant, now)
  {
    hide Free;
    hide ReconcileAction;
    if n > 0 {
      ActionsKeepFree(b, actions, n - 1, now, relevant, before, from);
      var mid := ReconcileActions(b, actions, n - 1, now, relevant).value;
      var after := ReconcileAction(mid, actions[n - 1], now, relevant).value;
      ActionKeepsFree(mid, actions[n - 1], now, relevant, before, from);
      CancelsOn(b, mid, after, actions, actions[n - 1], relevant);
    }
  }

  lemma SettleKeepsFree(b: Book, calendar: Calendar, now: int, before: set<int>, from: nat)
    requires Free(b, before, from) && Settle(b, calendar, now).Ok?
    ensures var after := Settle(b, calendar, now).value;
      Free(after, before, from) && after.orders == b.orders && b.ledger <= after.ledger && after.applied == b.applied
  {
    assert SoundBalances(b.account.balances);
    hide Settle;
    hide BackedBook;
    hide SettlesKeys;
    SettlementIsSettledBook(b, calendar, now);
    var m := SettleReceivables(b.account, Sales(b), calendar, now).value;
    SettledBookIsBacked(b, Sales(b), calendar, now, m);
    assert forall i :: 0 <= i < |m.entries| ==> m.entries[i].kind == Settlement;
    hide SettlesCash;
    hide SettleReceivables;
    hide SettledKeys;
    QuietKeepsFree(b, Settle(b, calendar, now).value, before, from);
  }

  /** What a reconciliation that succeeds does to open orders: it closes those cancelled by a split it takes, leaves no
      sell open behind a split, and has taken every action in force. */
  lemma ReconcileKeepsFree(b: Book, s: Snapshot, now: int, relevant: set<int>, before: set<int>, from: nat)
    requires Free(b, before, from) && Reconcile(b, s, now, relevant).Ok?
    ensures var after := Reconcile(b, s, now, relevant).value;
      && Free(after, before, from) && OnlyCancels(b, after, s.actions, relevant)
      && forall a :: a in s.actions ==> TakenAs(after, a, relevant, now)
  {
    hide Free;
    hide Settle;
    hide ReconcileActions;
    hide TakenAs;
    var actions := Sort(s.actions, ByEffect());
    forall a
      ensures a in actions <==> a in s.actions
    {
      SortKeepsElements(s.actions, ByEffect(), a);
    }
    hide Sort;
    SettleKeepsFree(b, s.calendar, now, before, from);
    ActionsKeepFree(Settle(b, s.calendar, now).value, actions, |actions|, now, relevant, before, from);
    hide Takeable;
    hide CancelledBySplit;
  }

  /** A waiting sell does not survive the split: a reconciliation that takes the split has cancelled the sell before,
      for a split in force by its opening. */
  lemma WaitingSellIsCancelled(b: Book, m: nat, s: Snapshot, a: CorporateAction, now: int, relevant: set<int>)
    requires BackedBook(b) && m < |b.orders| && WaitingSell(b.orders[m], a) && a.kind == Split && a in s.actions
    requires a.instrument in relevant && a.effectiveAt <= now && a.id !in b.applied
    requires Reconcile(b, s, now, relevant).Ok?
    ensures exists x :: x in s.actions && Takeable(b, x, relevant) && x.kind == Split
                        && CancelledBySplit(b.orders[m], x)
  {
    hide BackedBook;
    hide Reconcile;
    var after := Reconcile(b, s, now, relevant).value;
    ReconcileKeepsFree(b, s, now, relevant, b.applied.Keys, |b.ledger|);
    assert TakenAs(after, a, relevant, now);
    assert RecordedFrom(after.ledger, after.applied[a.id], |b.ledger|);
  }

  /** So a reconciliation that would have to take the split is refused, unless it cancels the sell first. */
  lemma WaitingSellStopsReconcile(b: Book, m: nat, s: Snapshot, a: CorporateAction, now: int, relevant: set<int>)
    requires BackedBook(b) && m < |b.orders| && WaitingSell(b.orders[m], a) && a.kind == Split && a in s.actions
    requires a.instrument in relevant && a.effectiveAt <= now && a.id !in b.applied
    requires forall x :: x in s.actions && Takeable(b, x, relevant) && x.kind == Split ==>
      !CancelledBySplit(b.orders[m], x)
    ensures Reconcile(b, s, now, relevant).Err?
  {
    hide BackedBook;
    hide Reconcile;
    hide CancelledBySplit;
    hide Takeable;
    if Reconcile(b, s, now, relevant).Ok? {
      WaitingSellIsCancelled(b, m, s, a, now, relevant);
    }
  }
}
