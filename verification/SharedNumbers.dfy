// Replay orders are numbered by date, instrument and side, and one plan can sell a name twice. Two fills under one
// number stop the settlement of the book: it settles exactly when no two of its unsettled sales share a number.
module SharedNumbers {
  import opened Outcomes
  import opened Money
  import opened Domain
  import opened Calendars
  import opened Sums
  import opened Ledger
  import opened Reservations
  import opened Snapshots
  import opened Replay
  import opened BookEvents
  import opened BookMeaning

  // ---------- When a settlement goes through ----------

  predicate DistinctKeys(entries: seq<LedgerEntry>) {
    forall i, j :: 0 <= i < j < |entries| ==> entries[i].key != entries[j].key
  }

  /** Nothing but shared numbers stands in the way: each sale has a settlement day, and the account can take the
      cash. */
  ghost predicate Settleable(account: Account, sales: seq<LedgerEntry>, calendar: Calendar) {
    && SoundBalances(account.balances)
    && (forall i :: 0 <= i < |sales| ==>
          Receivable(account, sales[i]) && SettlementStart(calendar, sales[i].effectiveAt).Ok?)
    && Sum(sales, In(UnsettledCash)) <= account.balances.unsettled
    && account.balances.available + Sum(sales, In(UnsettledCash)) <= MAX_INT64
  }

  /** What is left to move after some of the sales have been settled. */
  ghost predicate PartlySettled(before: Account, sales: seq<LedgerEntry>, after: Account) {
    && OnlyBalances(before, after) && SoundBalances(after.balances)
    && before.balances.unsettled - Sum(sales, In(UnsettledCash)) <= after.balances.unsettled
    && after.balances.available + after.balances.unsettled == before.balances.available + before.balances.unsettled
  }

  lemma SettlesOne(account: Account, init: seq<LedgerEntry>, s: LedgerEntry, due: int, now: int, after: Account)
    requires PartlySettled(account, init, after) && Receivable(account, s)
    requires Sum(init, In(UnsettledCash)) + s.delta.unsettled <= account.balances.unsettled
    requires account.balances.available + Sum(init, In(UnsettledCash)) + s.delta.unsettled <= MAX_INT64
    requires Sum(init, In(UnsettledCash)) >= 0
    ensures var r := ApplyDelta(after.balances, SettlementEntry(account, s, due, now).delta);
      && r.Ok?
      && PartlySettled(account, init + [s], after.(balances := r.value))
      && PartlySettled(account, init + [s], after)
  {
    SumAppend(init, s, In(UnsettledCash));
    hide Sum;
  }

  lemma {:induction false} SettlesWhenDistinct(account: Account, sales: seq<LedgerEntry>, calendar: Calendar, now: int)
    requires Settleable(account, sales, calendar)
    ensures DistinctKeys(sales) ==> SettleReceivables(account, sales, calendar, now).Ok?
    ensures SettleReceivables(account, sales, calendar, now).Ok? ==>
      PartlySettled(account, sales, SettleReceivables(account, sales, calendar, now).value.account)
    ensures var r := SettleReceivables(account, sales, calendar, now); r.Err? ==> r.error == InvalidInput
  {
    if sales != [] {
      var init, s := sales[..|sales| - 1], sales[|sales| - 1];
      assert init + [s] == sales;
      SumAppend(init, s, In(UnsettledCash));
      forall e | e in init
        ensures In(UnsettledCash)(e) >= 0
      {
        var i :| 0 <= i < |init| && init[i] == e;
        assert Receivable(account, sales[i]);
      }
      SumNonNegative(init, In(UnsettledCash));
      assert Receivable(account, s);
      forall i | 0 <= i < |init|
        ensures Receivable(account, init[i]) && SettlementStart(calendar, init[i].effectiveAt).Ok?
      {
        assert Receivable(account, sales[i]);
      }
      SettlesWhenDistinct(account, init, calendar, now);
      hide Sum;
      hide SettlementStart;
      hide PartlySettled;
      hide ApplyDelta;
      var before := SettleReceivables(account, init, calendar, now);
      if before.Ok? {
        SettlesOne(account, init, s, SettlementStart(calendar, s.effectiveAt).value, now, before.value.account);
      }
    }
  }

  lemma {:induction false} SettledAreDistinct(account: Account, sales: seq<LedgerEntry>, calendar: Calendar, now: int)
    requires SettleReceivables(account, sales, calendar, now).Ok?
    ensures DistinctKeys(sales)
  {
    if sales != [] {
      SettledAreDistinct(account, sales[..|sales| - 1], calendar, now);
    }
  }

  /** The unsettled cash of a sound book is exactly the proceeds of the sales it has still to settle. */
  lemma UnsettledIsSales(b: Book)
    requires Sound(b)
    ensures Sum(Sales(b), In(UnsettledCash)) == b.account.balances.unsettled
  {
    assert b.account.balances.unsettled == Sum(b.ledger, Outstanding(b.settled));
    hide Sound;
    SumOfFiltered(b.ledger, AwaitingSettlement(b.settled), In(UnsettledCash));
    SameSum(b.ledger, Where(AwaitingSettlement(b.settled), In(UnsettledCash)), Outstanding(b.settled));
  }

  /** A sound book whose sales all have a settlement day settles if and only if no two of its unsettled sales share a
      number; otherwise it refuses, at every instant, and every reconciliation of the book with it. */
  lemma SettlesIffDistinct(b: Book, calendar: Calendar, now: int)
    requires Sound(b) && b.account.balances.available + b.account.balances.unsettled <= MAX_INT64
    requires forall i :: 0 <= i < |Sales(b)| ==>
      Receivable(b.account, Sales(b)[i]) && SettlementStart(calendar, Sales(b)[i].effectiveAt).Ok?
    ensures Settle(b, calendar, now).Ok? <==> DistinctKeys(Sales(b))
    ensures Settle(b, calendar, now).Err? ==> Settle(b, calendar, now).error == InvalidInput
  {
    UnsettledIsSales(b);
    assert SoundBalances(b.account.balances);
    hide Sound;
    hide Sum;
    hide SettlementStart;
    SettlesWhenDistinct(b.account, Sales(b), calendar, now);
    hide Settleable;
    if SettleReceivables(b.account, Sales(b), calendar, now).Ok? {
      SettledAreDistinct(b.account, Sales(b), calendar, now);
    }
    hide PartlySettled;
    hide SettleReceivables;
  }

  lemma StuckBookNeverReconciles(b: Book, s: Snapshot, now: int, relevant: set<int>)
    requires !DistinctKeys(Sales(b))
    ensures Reconcile(b, s, now, relevant).Err?
  {
    hide ReconcileActions;
    if Settle(b, s.calendar, now).Ok? {
      SettledAreDistinct(b.account, Sales(b), s.calendar, now);
    }
    hide SettleReceivables;
  }
}
