/** An order whose opening has come can no longer be cancelled: only the market or a split closes it. */
module LiveOpenings {
  import opened Outcomes
  import opened Domain
  import opened Calendars
  import opened Ledger
  import opened Snapshots
  import opened Risk
  import opened Rebalance
  import opened Live
  import opened LiveReserves
  import opened LiveRuns

  /** The n-th stored order is still open on the same terms and with the same reserves. */
  predicate StaysOpen(s: Store, t: Store, n: nat)
    requires n < |s.orders|
  {
    n < |t.orders| && StillOpen(s.orders[n], t.orders[n])
  }

  lemma StaysOpenThrough(s: Store, t: Store, u: Store, n: nat)
    requires n < |s.orders| && StaysOpen(s, t, n) && StaysOpen(t, u, n)
    ensures StaysOpen(s, u, n)
  {
  }

  lemma SameOrder(orders: seq<Order>, n: nat, o: Order)
    requires DistinctIds(orders) && n < |orders| && o in orders && o.id == orders[n].id
    ensures orders[n] == o
  {
  }

  lemma SaveStaysOpen(s: Store, o: Order, now: int, n: nat)
    requires DistinctIds(s.orders) && o in s.orders && n < |s.orders| && !s.orders[n].Terminal()
    requires SaveOrder(s, AdvanceOrder(o, now), o.version).Ok?
    ensures StaysOpen(s, SaveOrder(s, AdvanceOrder(o, now), o.version).value, n)
  {
    FindStored(s.orders, o);
  }

  lemma CancelOneSpares(s: Store, o: Order, now: int, reason: Reason, buysOnly: bool, n: nat)
    requires Kept(s) && o in s.orders && !o.Terminal() && CancelOne(s, o, now, reason, buysOnly).Ok?
    requires n < |s.orders| && !s.orders[n].Terminal() && now >= s.orders[n].targetOpenAt
    ensures StaysOpen(s, CancelOne(s, o, now, reason, buysOnly).value, n)
  {
    KeptIsBacked(s);
    CancelOneKeeps(s, o, now, reason, buysOnly);
    hide Kept;
    hide CloseWith;
    hide ReleaseOrder;
    if AdvanceOrder(o, now).state != o.state {
      SaveStaysOpen(s, o, now, n);
      hide SaveOrder;
    } else if s.orders[n].id == o.id {
      hide SaveOrder;
      SameOrder(s.orders, n, o);
    }
  }

  lemma {:induction false} CancelEachSpares(s: Store, pending: seq<Order>, k: nat, now: int, reason: Reason,
                                            buysOnly: bool, n: nat)
    requires k <= |pending| && Kept(s) && DistinctIds(pending) && StillThere(s, pending, 0)
    requires CancelEach(s, pending, k, now, reason, buysOnly).Ok?
    requires n < |s.orders| && !s.orders[n].Terminal() && now >= s.orders[n].targetOpenAt
    ensures StaysOpen(s, CancelEach(s, pending, k, now, reason, buysOnly).value, n)
  {
    hide Kept;
    hide CancelOne;
    hide DistinctIds;
    if k > 0 {
      CancelEachSpares(s, pending, k - 1, now, reason, buysOnly, n);
      CancelEachKeeps(s, pending, k - 1, now, reason, buysOnly);
      var before := CancelEach(s, pending, k - 1, now, reason, buysOnly).value;
      CancelOneSpares(before, pending[k - 1], now, reason, buysOnly, n);
      StaysOpenThrough(s, before, CancelOne(before, pending[k - 1], now, reason, buysOnly).value, n);
    }
  }

  lemma CancelBeforeOpenSpares(s: Store, now: int, reason: Reason, buysOnly: bool, n: nat)
    requires Kept(s) && CancelBeforeOpen(s, now, reason, buysOnly).Ok?
    requires n < |s.orders| && !s.orders[n].Terminal() && now >= s.orders[n].targetOpenAt
    ensures StaysOpen(s, CancelBeforeOpen(s, now, reason, buysOnly).value, n)
  {
    KeptIsBacked(s);
    PendingAreStored(s);
    hide Kept;
    hide CancelEach;
    hide ListPending;
    CancelEachSpares(s, ListPending(s.orders), |ListPending(s.orders)|, now, reason, buysOnly, n);
  }

  lemma ReserveSpares(s: Store, batch: seq<Order>, n: nat)
    requires n < |s.orders| && !s.orders[n].Terminal()
    ensures StaysOpen(s, Reserve(s, batch).After(s), n)
  {
    hide ReserveOrders;
    if batch != [] && ReserveOrders(s.account, s.positions, batch).Ok? && InsertOrders(s, batch).Ok? {
      InsertedOrders(s, batch);
      var t, entries := InsertOrders(s, batch).value, ReserveOrders(s.account, s.positions, batch).value.entries;
      if InsertLedger(t, entries).Ok? {
        InsertedEntries(t, entries);
      }
      hide InsertOrders;
      hide InsertLedger;
    }
  }

  /** An order closed by a cancellation is one whose opening has not come. */
  lemma ClosingSpares(s: Store, o: Order, m: Mutation, now: int, n: nat)
    requires DistinctIds(s.orders) && o in s.orders && o.CancellableAt(now)
    requires m.entries == [ReleaseEntry(s.account, o, Released(UserCancelled), now)]
    requires CloseWith(s, o, Closed(o, Cancelled, UserCancelled), m).Ok?
    requires n < |s.orders| && !s.orders[n].Terminal() && now >= s.orders[n].targetOpenAt
    ensures StaysOpen(s, CloseWith(s, o, Closed(o, Cancelled, UserCancelled), m).value, n)
  {
    hide ReleaseEntry;
    var k := CloseWithShape(s, o, Closed(o, Cancelled, UserCancelled), m,
                            ReleaseEntry(s.account, o, Released(UserCancelled), now));
    hide CloseWith;
    assert k != n;
  }

  /** What a cancellation leaves stored: nothing new, the order advanced, or the order closed. */
  lemma CancelOutcome(s: Store, now: int, id: OrderId, expected: int)
    ensures var t, k := CancelOrder(s, now, id, expected).After(s), Find(s.orders, id);
      || t == s
      || (k < |s.orders| && SaveOrder(s, AdvanceOrder(s.orders[k], now), s.orders[k].version) == Ok(t))
      || (k < |s.orders| && s.orders[k].CancellableAt(now)
          && var released := ReleaseOrder(s.account, s.positions, s.orders[k], UserCancelled, now);
            released.Ok?
            && var closed := CloseWith(s, s.orders[k], Closed(s.orders[k], Cancelled, UserCancelled), released.value);
              closed.Ok? && t == SaveAccount(closed.value))
  {
    hide ReleaseOrder;
    hide CloseWith;
    hide SaveOrder;
    hide SaveAccount;
    hide Closed;
  }

  lemma CancelSpares(s: Store, now: int, id: OrderId, expected: int, n: nat)
    requires Kept(s) && n < |s.orders| && !s.orders[n].Terminal() && now >= s.orders[n].targetOpenAt
    ensures StaysOpen(s, CancelOrder(s, now, id, expected).After(s), n)
  {
    KeptIsBacked(s);
    CancelOutcome(s, now, id, expected);
    hide Kept;
    hide DistinctIds;
    hide CancelOrder;
    hide ReleaseOrder;
    hide ReleaseEntry;
    hide CloseWith;
    hide SaveOrder;
    hide Closed;
    StillOpenItself(s.orders[n]);
    var k := Find(s.orders, id);
    if k < |s.orders| {
      var o := s.orders[k];
      if SaveOrder(s, AdvanceOrder(o, now), o.version).Ok? {
        SaveStaysOpen(s, o, now, n);
      }
      var released := ReleaseOrder(s.account, s.positions, o, UserCancelled, now);
      if o.CancellableAt(now) && released.Ok?
         && CloseWith(s, o, Closed(o, Cancelled, UserCancelled), released.value).Ok? {
        ReleaseEntries(s.account, s.positions, o, now);
        ClosingSpares(s, o, released.value, now, n);
      }
    }
  }

  lemma StillOpenItself(o: Order)
    requires !o.Terminal()
    ensures StillOpen(o, o)
  {
  }

  lemma ReleaseEntries(account: Account, positions: seq<Position>, o: Order, now: int)
    requires ReleaseOrder(account, positions, o, UserCancelled, now).Ok?
    ensures ReleaseOrder(account, positions, o, UserCancelled, now).value.entries
         == [ReleaseEntry(account, o, Released(UserCancelled), now)]
  {
    hide ReleaseShares;
    hide ApplyDelta;
  }

  lemma ConfigureSpares(s: Store, data: Result<Snapshot>, now: int, r: ConfigureRequest, n: nat)
    requires Kept(s) && n < |s.orders| && !s.orders[n].Terminal() && now >= s.orders[n].targetOpenAt
    ensures StaysOpen(s, ConfigureAutomation(s, data, now, r).After(s), n)
  {
    hide Kept;
    hide CancelBeforeOpen;
    hide NextOpening;
    var changed := Reconfigures(s.account, r);
    var opening := if r.enabled || changed then NextOpening(CalendarOf(data), now) else Ok(0);
    if opening.Ok? {
      var ready := if changed then WithPending(s, r, opening.value) else s;
      AccountKeeps(s, ready.account);
      var reason := if r.enabled then ConfigurationChanged else UserPaused;
      if CancelBeforeOpen(ready, now, reason, r.enabled).Ok? {
        CancelBeforeOpenSpares(ready, now, reason, r.enabled, n);
      }
    }
  }

  lemma IssueSpares(s: Store, data: Snapshot, run: EvaluationRun, target: Session, now: int, planned: seq<PlannedOrder>,
                    n: nat)
    requires n < |s.orders| && !s.orders[n].Terminal()
    ensures StaysOpen(s, IssueBatch(s, data, run, target, now, planned).After(s), n)
  {
    hide SizeBatch;
    hide Reserve;
    hide NextSession;
    hide NextSettlement;
    var following := NextSession(data.calendar, target.closeAt);
    if following.Ok? {
      var batch := SizeBatch(s, data, run.date, target, following.value.closeAt, now, planned, |planned|, run.newId);
      if batch.Ok? {
        ReserveSpares(s, batch.value.0, n);
      }
    }
  }

  lemma PauseSpares(s: Store, now: int, n: nat)
    requires Kept(s) && n < |s.orders| && !s.orders[n].Terminal() && now >= s.orders[n].targetOpenAt
    ensures StaysOpen(s, PauseAutomation(s, now).After(s), n)
  {
    hide Kept;
    hide CancelBeforeOpen;
    if CancelBeforeOpen(s, now, DrawdownPause, false).Ok? {
      CancelBeforeOpenSpares(s, now, DrawdownPause, false, n);
    }
  }

  lemma EvaluateSpares(s: Store, data: Snapshot, now: int, run: EvaluationRun, n: nat)
    requires Kept(s) && n < |s.orders| && !s.orders[n].Terminal() && now >= s.orders[n].targetOpenAt
    ensures StaysOpen(s, EvaluateAccount(s, data, now, run).After(s), n)
  {
    hide Kept;
    hide PauseAutomation;
    hide IssueBatch;
    hide BuildRebalance;
    hide ComputeNAV;
    hide ListPending;
    hide MayIssue;
    hide NextSession;
    hide SessionAmong;
    var session := SessionOn(data.calendar, run.date);
    if session.Ok? {
      var target := NextSession(data.calendar, session.value.closeAt);
      var nav := ComputeNAV(s.account, s.positions, data, map[]);
      if target.Ok? && nav.Ok? {
        var plan := BuildRebalance(LivePlanInput(s, data, run, target.value, nav.value));
        PauseSpares(s, now, n);
        if plan.Ok? {
          IssueSpares(s, data, run, target.value, now, plan.value.orders, n);
        }
      }
    }
  }

  /** Placing, cancelling, configuring or evaluating — a pause for drawdown included — leaves every order whose opening
      has come open on its own terms, with all it reserves; a late cancellation cannot undo the opening. */
  lemma OpenedOrdersSurvive(s: Store, c: Command, n: nat)
    requires Kept(s) && n < |s.orders| && !s.orders[n].Terminal()
    requires !c.Execute? && !c.Reconcile? && c.now >= s.orders[n].targetOpenAt
    ensures StaysOpen(s, Run(s, c).After(s), n)
  {
    hide Kept;
    hide OrderToPlace;
    hide CancelOrder;
    hide ConfigureAutomation;
    hide EvaluateAccount;
    hide Reserve;
    match c
    case Place(data, now, peak, r) =>
      if data.Ok? && r.quantity.Ok? && OrderToPlace(s, data.value, now, peak, r, r.quantity.value).Ok? {
        ReserveSpares(s, [OrderToPlace(s, data.value, now, peak, r, r.quantity.value).value], n);
      }
    case Cancel(now, id, expected) => CancelSpares(s, now, id, expected, n);
    case Configure(data, now, r) => ConfigureSpares(s, data, now, r, n);
    case Adopt(now) =>
    case Evaluate(data, now, run) => EvaluateSpares(s, data, now, run, n);
  }
}
