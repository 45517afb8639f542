// What a command leaves behind, told in terms of what is stored before and after it: what an accepted order reserves,
// what a cancellation gives back, that a pause leaves nothing to cancel, that no due order outlives its deadline, and
// that every sale whose settlement has begun is settled.
module LivePromises {
  import opened Outcomes
  import opened Money
  import opened Domain
  import opened Calendars
  import opened Lists
  import opened Sums
  import opened Holdings
  import opened Ledger
  import opened Reservations
  import opened Snapshots
  import opened Risk
  import opened Rebalance
  import opened Execution
  import opened BookEvents
  import opened Live
  import opened LiveReserves
  import opened LiveRuns
  import opened LiveOpenings
  import opened LiveHistory
  import opened LiveBuckets

  // ---------- Placing ----------

  /** One order more, on the terms asked for, with its reserve taken out of the free cash or the free shares. */
  predicate Placed(s: Store, t: Store, r: PlaceRequest, now: int) {
    && |t.orders| == |s.orders| + 1 && t.orders[..|s.orders|] == s.orders
    && var o := t.orders[|s.orders|];
      && o.id == r.id && o.instrument == r.instrument && o.side == r.side && r.quantity == Ok(o.quantity)
      && o.state == Pending && now < o.targetOpenAt
      && t.account.balances == s.account.balances.(available := s.account.balances.available - o.reservedCash,
                                                   reserved := s.account.balances.reserved + o.reservedCash)
      && t.positions == (if o.side == Buy then s.positions else MoveShares(s.positions, o.instrument, o.quantity))
      && t.fills == s.fills
  }

  lemma ReservedOne(s: Store, o: Order)
    requires Reserve(s, [o]).Committed?
    ensures var t := Reserve(s, [o]).store;
      && t.orders == s.orders + [o] && t.fills == s.fills && WellFormedReservation(s.account, o)
      && t.account.balances == s.account.balances.(available := s.account.balances.available - o.reservedCash,
                                                   reserved := s.account.balances.reserved + o.reservedCash)
      && t.positions == if o.side == Buy then s.positions else MoveShares(s.positions, o.instrument, o.quantity)
  {
    SingleReservation(s.account, s.positions, o);
    var m := ReserveOne(s.account, s.positions, o).value;
    InsertedOrders(s, [o]);
    var inserted := InsertOrders(s, [o]).value;
    hide ReserveOrders;
    hide InsertOrders;
    InsertedEntries(inserted, m.entries);
    hide InsertLedger;
  }

  lemma OrderIsAsAsked(s: Store, data: Snapshot, now: int, peak: int, r: PlaceRequest, quantity: int)
    requires OrderToPlace(s, data, now, peak, r, quantity).Ok?
    ensures var o := OrderToPlace(s, data, now, peak, r, quantity).value;
      o.id == r.id && o.instrument == r.instrument && o.side == r.side && o.quantity == quantity && now < o.targetOpenAt
  {
    hide LatestCompleted;
    hide PreviousVolumeCapacity;
    hide ComputeNAV;
    hide ValidateOrder;
    hide CloseOn;
    hide Filter;
    hide ListPending;
    hide ReservationCost;
    hide SettlementKnown;
    EarliestAfterIsEarliest(data.calendar.sessions, now);
  }

  /** An accepted request is stored as asked; a refused or failed one leaves everything as it was. */
  lemma PlaceLeaves(s: Store, data: Result<Snapshot>, now: int, peak: int, r: PlaceRequest)
    ensures var o := PlaceOrder(s, data, now, peak, r);
      if o.Committed? then Placed(s, o.store, r, now) else o.After(s) == s
  {
    hide OrderToPlace;
    hide Placed;
    if PlaceOrder(s, data, now, peak, r).Committed? {
      var o := OrderToPlace(s, data.value, now, peak, r, r.quantity.value).value;
      OrderIsAsAsked(s, data.value, now, peak, r, r.quantity.value);
      ReservedOne(s, o);
      hide Reserve;
      AsPlaced(s, Reserve(s, [o]).store, o, r, now);
    } else {
      hide ReserveOrders;
      hide InsertOrders;
      hide InsertLedger;
    }
  }

  lemma AsPlaced(s: Store, t: Store, o: Order, r: PlaceRequest, now: int)
    requires t.orders == s.orders + [o] && t.fills == s.fills && WellFormedReservation(s.account, o)
    requires t.account.balances == s.account.balances.(available := s.account.balances.available - o.reservedCash,
                                                       reserved := s.account.balances.reserved + o.reservedCash)
    requires t.positions == if o.side == Buy then s.positions else MoveShares(s.positions, o.instrument, o.quantity)
    requires o.id == r.id && o.instrument == r.instrument && o.side == r.side && r.quantity == Ok(o.quantity)
    requires now < o.targetOpenAt
    ensures Placed(s, t, r, now)
  {
  }

  // ---------- Cancelling ----------

  /** The order is closed before its opening, and its own reserve is free again. */
  predicate GivenBack(s: Store, t: Store, id: OrderId, now: int) {
    var n := Find(s.orders, id);
    && n < |s.orders| && s.orders[n].CancellableAt(now)
    && t.orders == s.orders[n := Closed(s.orders[n], Cancelled, UserCancelled).(version := s.orders[n].version + 1)]
    && t.account.balances == s.account.balances.(available := s.account.balances.available + CashHeld()(s.orders[n]),
                                                 reserved := s.account.balances.reserved - CashHeld()(s.orders[n]))
    && t.positions == (if s.orders[n].side == Buy then s.positions
                       else MoveShares(s.positions, s.orders[n].instrument, -s.orders[n].reservedQuantity))
    && t.fills == s.fills
  }

  lemma ReleasedCash(account: Account, positions: seq<Position>, o: Order, why: Reason, now: int)
    requires ReleaseOrder(account, positions, o, why, now).Ok?
    ensures var m := ReleaseOrder(account, positions, o, why, now).value;
      && m.entries == [ReleaseEntry(account, o, Released(why), now)]
      && m.account.balances == account.balances.(available := account.balances.available + CashHeld()(o),
                                                 reserved := account.balances.reserved - CashHeld()(o))
      && m.positions == if o.side == Buy then positions else MoveShares(positions, o.instrument, -o.reservedQuantity)
  {
  }

  lemma CancelCommits(s: Store, now: int, id: OrderId, expected: int)
    requires CancelOrder(s, now, id, expected).Committed?
    ensures var n := Find(s.orders, id);
      && n < |s.orders| && s.orders[n].CancellableAt(now)
      && var m := ReleaseOrder(s.account, s.positions, s.orders[n], UserCancelled, now);
        && m.Ok?
        && var t := CloseWith(s, s.orders[n], Closed(s.orders[n], Cancelled, UserCancelled), m.value);
          t.Ok? && CancelOrder(s, now, id, expected).store == SaveAccount(t.value)
  {
    hide ReleaseOrder;
    hide CloseWith;
    hide SaveOrder;
  }

  lemma CancelGivesBack(s: Store, now: int, id: OrderId, expected: int)
    requires DistinctIds(s.orders) && CancelOrder(s, now, id, expected).Committed?
    ensures GivenBack(s, CancelOrder(s, now, id, expected).store, id, now)
  {
    CancelCommits(s, now, id, expected);
    hide CancelOrder;
    var o := s.orders[Find(s.orders, id)];
    var m := ReleaseOrder(s.account, s.positions, o, UserCancelled, now).value;
    ReleasedCash(s.account, s.positions, o, UserCancelled, now);
    hide ReleaseOrder;
    var e := ReleaseEntry(s.account, o, Released(UserCancelled), now);
    hide ReleaseEntry;
    var n := CloseWithShape(s, o, Closed(o, Cancelled, UserCancelled), m, e);
    hide CloseWith;
  }

  /** An accepted cancellation gives the reserve back; a refused one at most lets the order wait for its bar; a failed
      one changes nothing. */
  lemma CancelLeaves(s: Store, now: int, id: OrderId, expected: int)
    requires SoundDesk(s)
    ensures var o := CancelOrder(s, now, id, expected);
      && (o.Committed? ==> GivenBack(s, o.store, id, now))
      && (o.Declined? ==> o.store == s.(orders := o.store.orders))
  {
    KeptIsBacked(s);
    CancelDeclines(s, now, id, expected);
    hide *;
    if CancelOrder(s, now, id, expected).Committed? {
      CancelGivesBack(s, now, id, expected);
    }
  }

  lemma CancelDeclines(s: Store, now: int, id: OrderId, expected: int)
    ensures var o := CancelOrder(s, now, id, expected); o.Declined? ==> o.store == s.(orders := o.store.orders)
  {
    hide ReleaseOrder;
    hide CloseWith;
  }

  // ---------- Pausing ----------

  /** Nothing is left of the order that a cancellation at this time would have to give back. */
  predicate Quiet(o: Order, now: int, buysOnly: bool) {
    o.CancellableAt(now) ==> buysOnly && o.side != Buy
  }

  predicate AllQuiet(orders: seq<Order>, now: int, buysOnly: bool) {
    forall n :: 0 <= n < |orders| ==> Quiet(orders[n], now, buysOnly)
  }

  predicate QuietUnder(s: Store, id: OrderId, now: int, buysOnly: bool) {
    forall n :: 0 <= n < |s.orders| && s.orders[n].id == id ==> Quiet(s.orders[n], now, buysOnly)
  }

  /** Whether a bulk cancellation closes this order. */
  predicate ToCancel(o: Order, now: int, buysOnly: bool) {
    AdvanceOrder(o, now).state == o.state && o.CancellableAt(now) && !(buysOnly && o.side != Buy)
  }

  lemma ClosedIsQuiet(s: Store, o: Order, now: int, reason: Reason, buysOnly: bool)
    requires DistinctIds(s.orders) && o in s.orders && ToCancel(o, now, buysOnly)
    requires CancelOne(s, o, now, reason, buysOnly).Ok?
    ensures ClosedUnder(CancelOne(s, o, now, reason, buysOnly).value, o.id)
  {
    hide DistinctIds;
    hide ClosedUnder;
    var m, e := ReleaseOrder(s.account, s.positions, o, reason, now).value,
                ReleaseEntry(s.account, o, Released(reason), now);
    ReleasedCash(s.account, s.positions, o, reason, now);
    hide ReleaseOrder;
    hide ReleaseEntry;
    hide CloseWith;
    ClosingCloses(s, o, Cancelled, reason, m, e);
  }

  lemma SparedIsQuiet(s: Store, o: Order, now: int, reason: Reason, buysOnly: bool)
    requires DistinctIds(s.orders) && o in s.orders && !ToCancel(o, now, buysOnly)
    requires CancelOne(s, o, now, reason, buysOnly).Ok?
    ensures QuietUnder(CancelOne(s, o, now, reason, buysOnly).value, o.id, now, buysOnly)
  {
    FindStored(s.orders, o);
    hide ReleaseOrder;
    hide CloseWith;
  }

  lemma CancelOneQuiets(s: Store, o: Order, now: int, reason: Reason, buysOnly: bool)
    requires Kept(s) && o in s.orders && CancelOne(s, o, now, reason, buysOnly).Ok?
    ensures QuietUnder(CancelOne(s, o, now, reason, buysOnly).value, o.id, now, buysOnly)
  {
    KeptIsBacked(s);
    hide Kept;
    hide Matched;
    hide DistinctIds;
    hide CancelOne;
    hide ToCancel;
    if ToCancel(o, now, buysOnly) {
      ClosedIsQuiet(s, o, now, reason, buysOnly);
    } else {
      SparedIsQuiet(s, o, now, reason, buysOnly);
    }
  }

  lemma {:induction false} CancelEachQuiets(s: Store, pending: seq<Order>, n: nat, now: int, reason: Reason,
                                            buysOnly: bool)
    requires n <= |pending| && Kept(s) && DistinctIds(pending) && StillThere(s, pending, 0)
    requires CancelEach(s, pending, n, now, reason, buysOnly).Ok?
    ensures var t := CancelEach(s, pending, n, now, reason, buysOnly).value;
      |t.orders| == |s.orders| && forall j :: 0 <= j < n ==> QuietUnder(t, pending[j].id, now, buysOnly)
  {
    hide Kept;
    hide CancelOne;
    hide Quiet;
    if n > 0 {
      CancelEachQuiets(s, pending, n - 1, now, reason, buysOnly);
      CancelEachKeeps(s, pending, n - 1, now, reason, buysOnly);
      var before := CancelEach(s, pending, n - 1, now, reason, buysOnly).value;
      CancelOneKeeps(before, pending[n - 1], now, reason, buysOnly);
      CancelOneQuiets(before, pending[n - 1], now, reason, buysOnly);
      var t := CancelEach(s, pending, n, now, reason, buysOnly).value;
      assert OnlyOrder(before, t, pending[n - 1].id);
      forall j | 0 <= j < n
        ensures QuietUnder(t, pending[j].id, now, buysOnly)
      {
        if j < n - 1 {
          assert QuietUnder(before, pending[j].id, now, buysOnly);
        }
      }
    }
  }

  /** Every open order is listed. */
  lemma OpenIsPending(orders: seq<Order>, n: nat)
    requires n < |orders| && !orders[n].Terminal()
    ensures orders[n] in ListPending(orders)
  {
    FilterKeeps(orders, IsOpen(), orders[n]);
    SortKeepsElements(Filter(orders, IsOpen()), ByInstrumentThenId(), orders[n]);
  }

  /** After a bulk cancellation no order — no buy, when only buys are cancelled — is left that could still be
      cancelled. */
  lemma CancelBeforeOpenQuiets(s: Store, now: int, reason: Reason, buysOnly: bool)
    requires Kept(s) && CancelBeforeOpen(s, now, reason, buysOnly).Ok?
    ensures var t := CancelBeforeOpen(s, now, reason, buysOnly).value;
      AllQuiet(t.orders, now, buysOnly)
  {
    var pending, t := ListPending(s.orders), CancelBeforeOpen(s, now, reason, buysOnly).value;
    KeptIsBacked(s);
    PendingAreStored(s);
    CancelEachQuiets(s, pending, |pending|, now, reason, buysOnly);
    CancelBeforeOpenExtends(s, now, reason, buysOnly);
    hide Kept;
    hide CancelEach;
    forall n | 0 <= n < |t.orders|
      ensures Quiet(t.orders[n], now, buysOnly)
    {
      assert Follows(s.orders[n], t.orders[n]);
      if !s.orders[n].Terminal() {
        OpenIsPending(s.orders, n);
        var j :| 0 <= j < |pending| && pending[j] == s.orders[n];
        assert QuietUnder(t, pending[j].id, now, buysOnly);
      }
    }
  }

  /** A configuration that switches automation off leaves no order to cancel, one that changes it leaves no buy to. */
  lemma ConfigureLeaves(s: Store, data: Result<Snapshot>, now: int, r: ConfigureRequest)
    requires SoundDesk(s)
    ensures var o := ConfigureAutomation(s, data, now, r);
      && (!o.Committed? ==> o.After(s) == s)
      && (o.Committed? ==> o.store.account.automationEnabled == r.enabled && o.store.fills == s.fills)
      && (o.Committed? && (!r.enabled || Reconfigures(s.account, r)) ==>
            AllQuiet(o.store.orders, now, r.enabled))
  {
    hide Kept;
    hide Matched;
    hide CancelBeforeOpen;
    hide NextOpening;
    hide Quiet;
    var changed := Reconfigures(s.account, r);
    var opening := if r.enabled || changed then NextOpening(CalendarOf(data), now) else Ok(0);
    if opening.Ok? && (!r.enabled || changed) {
      var ready := if changed then WithPending(s, r, opening.value) else s;
      AccountKeeps(s, ready.account);
      var reason := if r.enabled then ConfigurationChanged else UserPaused;
      if CancelBeforeOpen(ready, now, reason, r.enabled).Ok? {
        CancelBeforeOpenQuiets(ready, now, reason, r.enabled);
        CancelFillsNothing(ready, now, reason, r.enabled);
      }
    }
  }

  lemma {:induction false} CancelEachFillsNothing(s: Store, pending: seq<Order>, n: nat, now: int, reason: Reason,
                                                  buysOnly: bool)
    requires n <= |pending| && CancelEach(s, pending, n, now, reason, buysOnly).Ok?
    ensures CancelEach(s, pending, n, now, reason, buysOnly).value.fills == s.fills
  {
    hide CancelOne;
    if n > 0 {
      CancelEachFillsNothing(s, pending, n - 1, now, reason, buysOnly);
      CancelOneFillsNothing(CancelEach(s, pending, n - 1, now, reason, buysOnly).value, pending[n - 1], now, reason,
                            buysOnly);
    }
  }

  lemma CancelOneFillsNothing(s: Store, o: Order, now: int, reason: Reason, buysOnly: bool)
    requires CancelOne(s, o, now, reason, buysOnly).Ok?
    ensures CancelOne(s, o, now, reason, buysOnly).value.fills == s.fills
  {
    hide ReleaseOrder;
    var m := ReleaseOrder(s.account, s.positions, o, reason, now);
    if m.Ok? && CloseWith(s, o, Closed(o, Cancelled, reason), m.value).Ok? {
      InsertedEntries(SaveOrder(s, Closed(o, Cancelled, reason), o.version).value, m.value.entries);
    }
    hide InsertLedger;
  }

  lemma CancelFillsNothing(s: Store, now: int, reason: Reason, buysOnly: bool)
    requires CancelBeforeOpen(s, now, reason, buysOnly).Ok?
    ensures CancelBeforeOpen(s, now, reason, buysOnly).value.fills == s.fills
  {
    hide CancelEach;
    hide ListPending;
    CancelEachFillsNothing(s, ListPending(s.orders), |ListPending(s.orders)|, now, reason, buysOnly);
  }

  // ---------- Executing ----------

  /** The order of a number is closed. */
  predicate ClosedUnder(s: Store, id: OrderId) {
    forall n :: 0 <= n < |s.orders| && s.orders[n].id == id ==> s.orders[n].Terminal()
  }

  lemma ClosingCloses(s: Store, o: Order, state: OrderState, reason: Reason, m: Mutation, e: LedgerEntry)
    requires DistinctIds(s.orders) && o in s.orders && m.entries == [e] && state != Pending && state != AwaitingBar
    requires CloseWith(s, o, Closed(o, state, reason), m).Ok?
    ensures ClosedUnder(CloseWith(s, o, Closed(o, state, reason), m).value, o.id)
  {
    var n := CloseWithShape(s, o, Closed(o, state, reason), m, e);
    hide CloseWith;
  }

  lemma ReleaseLiveCloses(s: Store, o: Order, state: OrderState, reason: Reason, at: int, now: int)
    requires DistinctIds(s.orders) && o in s.orders && state != Pending && state != AwaitingBar
    requires ReleaseLive(s, o, state, reason, at, now).Ok?
    ensures ClosedUnder(ReleaseLive(s, o, state, reason, at, now).value, o.id)
  {
    var m, e := ReleaseOrder(s.account, s.positions, o, reason, now).value,
                ReleaseEntry(s.account, o, Released(reason), now);
    ReleasedCash(s.account, s.positions, o, reason, now);
    hide ReleaseOrder;
    hide ReleaseEntry;
    hide CloseWith;
    hide DistinctIds;
    hide ClosedUnder;
    assert EffectiveAs(m.entries, at) == [e.(effectiveAt := at)];
    ClosingCloses(s, o, state, reason, m.(entries := EffectiveAs(m.entries, at)), e.(effectiveAt := at));
  }

  lemma FillLiveCloses(s: Store, o: Order, fill: Fill, state: OrderState, reason: Reason)
    requires DistinctIds(s.orders) && o in s.orders && state != Pending && state != AwaitingBar
    requires FillLive(s, o, fill, state, reason).Ok?
    ensures ClosedUnder(FillLive(s, o, fill, state, reason).value, o.id)
  {
    var e := FillRecords(s.account, s.positions, fill);
    hide ApplyFill;
    hide CloseWith;
    hide DistinctIds;
    ClosingCloses(s, o, state, reason, ApplyFill(s.account, s.positions, fill).value, e);
  }

  lemma ExecuteOneCloses(s: Store, data: Snapshot, o: Order, peak: int, now: int)
    requires DistinctIds(s.orders) && o in s.orders && ExecuteOne(s, data, o, peak, now).Ok? && now >= o.expiresAt
    ensures ClosedUnder(ExecuteOne(s, data, o, peak, now).value, o.id)
  {
    hide Tradable;
    hide LiveMatch;
    hide FillLive;
    hide ReleaseLive;
    hide ExecutionBlocked;
    hide DistinctIds;
    hide ClosedUnder;
    var advanced := AdvanceOrder(o, now);
    if Tradable(s, data, advanced) {
      var matched := LiveMatch(s, data, advanced, peak, now).value;
      match matched.fill
      case Some(fill) =>
        FillLiveCloses(s, o, fill, if matched.cancelledQuantity > 0 then PartiallyFilled else Filled, matched.reason);
      case None => ReleaseLiveCloses(s, o, Rejected, matched.reason, advanced.targetOpenAt, now);
    } else {
      ReleaseLiveCloses(s, o, Expired,
                        if ExecutionBlocked(s, data, advanced) then ActionUnresolved else DataUnavailable,
                        advanced.expiresAt, now);
    }
  }

  /** The first orders of a list, when they are due and past their deadline, are closed. */
  predicate OverdueClosed(s: Store, pending: seq<Order>, n: nat, now: int, date: Option<int>)
    requires n <= |pending|
  {
    forall j :: 0 <= j < n && DueOn(pending[j], now, date) && now >= pending[j].expiresAt ==>
      ClosedUnder(s, pending[j].id)
  }

  lemma ClosedStays(s: Store, t: Store, id: OrderId, other: OrderId)
    requires ClosedUnder(s, id) && OnlyOrder(s, t, other) && id != other
    ensures ClosedUnder(t, id)
  {
  }

  lemma {:induction false} ExecuteEachCloses(s: Store, data: Snapshot, pending: seq<Order>, n: nat, peak: int, now: int,
                                             date: Option<int>)
    requires n <= |pending| && Kept(s) && DistinctIds(pending) && StillThere(s, pending, 0)
    requires ExecuteEach(s, data, pending, n, peak, now, date).Ok?
    ensures var t := ExecuteEach(s, data, pending, n, peak, now, date).value;
      |t.orders| == |s.orders| && OverdueClosed(t, pending, n, now, date)
  {
    hide Kept;
    hide ExecuteOne;
    hide ClosedUnder;
    if n > 0 {
      ExecuteEachCloses(s, data, pending, n - 1, peak, now, date);
      ExecuteEachKeeps(s, data, pending, n - 1, peak, now, date);
      var before := ExecuteEach(s, data, pending, n - 1, peak, now, date).value;
      if DueOn(pending[n - 1], now, date) {
        var t := ExecuteOne(before, data, pending[n - 1], peak, now).value;
        ExecuteOneKeeps(before, data, pending[n - 1], peak, now);
        KeptIsBacked(before);
        if now >= pending[n - 1].expiresAt {
          ExecuteOneCloses(before, data, pending[n - 1], peak, now);
        }
        forall j | 0 <= j < n - 1 && DueOn(pending[j], now, date) && now >= pending[j].expiresAt
          ensures ClosedUnder(t, pending[j].id)
        {
          ClosedStays(before, t, pending[j].id, pending[n - 1].id);
        }
      }
    }
  }

  /** No order that is due is open past its deadline. */
  predicate NoneOverdue(orders: seq<Order>, now: int, date: Option<int>) {
    forall n :: 0 <= n < |orders| && DueOn(orders[n], now, date) && now >= orders[n].expiresAt ==> orders[n].Terminal()
  }

  /** An execution fails as a whole, or leaves no due order open past its deadline. */
  lemma DueIsClosed(s: Store, t: Store, r: Store, now: int, date: Option<int>, n: nat)
    requires n < |s.orders| <= |t.orders| && Follows(s.orders[n], t.orders[n]) && DistinctIds(s.orders)
    requires t.orders == r.orders && DueOn(t.orders[n], now, date) && now >= t.orders[n].expiresAt
    requires var pending := Sort(ListPending(s.orders), BySideThenName());
      OverdueClosed(r, pending, |pending|, now, date)
    ensures t.orders[n].Terminal()
  {
    var listed := ListPending(s.orders);
    var pending := Sort(listed, BySideThenName());
    if !s.orders[n].Terminal() {
      OpenIsPending(s.orders, n);
      SortKeepsElements(listed, BySideThenName(), s.orders[n]);
      var j :| 0 <= j < |pending| && pending[j] == s.orders[n];
      assert ClosedUnder(r, pending[j].id);
    }
  }

  lemma ExecuteLeaves(s: Store, data: Snapshot, peak: int, now: int, date: Option<int>)
    requires SoundDesk(s)
    ensures var o := ExecuteOrders(s, data, peak, now, date);
      && !o.Declined?
      && (o.Committed? ==> |o.store.orders| == |s.orders| && NoneOverdue(o.store.orders, now, date))
  {
    KeptIsBacked(s);
    ResortedAreStored(s);
    hide Kept;
    hide Matched;
    hide ExecuteEach;
    hide ListPending;
    hide Sort;
    hide OverdueClosed;
    hide Grows;
    hide FillsGrow;
    var pending := Sort(ListPending(s.orders), BySideThenName());
    ExecuteExtends(s, data, peak, now, date);
    var r := ExecuteEach(s, data, pending, |pending|, peak, now, date);
    if r.Ok? {
      ExecuteEachCloses(s, data, pending, |pending|, peak, now, date);
      var t := ExecuteOrders(s, data, peak, now, date).store;
      assert t.orders == r.value.orders;
      forall n | 0 <= n < |t.orders| && DueOn(t.orders[n], now, date) && now >= t.orders[n].expiresAt
        ensures t.orders[n].Terminal()
      {
        DueIsClosed(s, t, r.value, now, date, n);
      }
    }
  }

  // ---------- Settling ----------

  lemma {:induction false} DueAreSettled(account: Account, sales: seq<LedgerEntry>, calendar: Calendar, now: int,
                                         e: LedgerEntry)
    requires SettleReceivables(account, sales, calendar, now).Ok? && e in sales
    ensures SettlementStart(calendar, e.effectiveAt).Ok?
    ensures SettlementStart(calendar, e.effectiveAt).value <= now ==>
      HasKey(SettleReceivables(account, sales, calendar, now).value.entries, SettlementKey(e.key))
  {
    hide SettlementStart;
    hide ApplyDelta;
    var init, last := sales[..|sales| - 1], sales[|sales| - 1];
    var before, after := SettleReceivables(account, init, calendar, now).value.entries,
                         SettleReceivables(account, sales, calendar, now).value.entries;
    if e in init {
      DueAreSettled(account, init, calendar, now, e);
      if HasKey(before, SettlementKey(e.key)) {
        var i :| 0 <= i < |before| && before[i].key == SettlementKey(e.key);
        assert after[i].key == SettlementKey(e.key);
      }
    } else {
      assert e == last;
      if SettlementStart(calendar, e.effectiveAt).value <= now {
        assert after[|after| - 1].key == SettlementKey(e.key);
      }
    }
  }

  lemma KeyStays(ledger: seq<LedgerEntry>, after: seq<LedgerEntry>, k: EventKey)
    requires ledger <= after && HasKey(ledger, k)
    ensures HasKey(after, k)
  {
    var i :| 0 <= i < |ledger| && ledger[i].key == k;
    assert after[i].key == k;
  }

  /** A sale whose settlement has begun. */
  predicate DueSale(e: LedgerEntry, calendar: Calendar, through: int) {
    var start := SettlementStart(calendar, e.effectiveAt);
    e.kind == SellFill && start.Ok? && start.value <= through
  }

  lemma SettleLiveSettles(s: Store, calendar: Calendar, through: int, now: int, i: nat)
    requires SettleLive(s, calendar, through, now).Ok? && i < |s.ledger| && DueSale(s.ledger[i], calendar, through)
    ensures HasKey(SettleLive(s, calendar, through, now).value.ledger, SettlementKey(s.ledger[i].key))
  {
    var e, t := s.ledger[i], SettleLive(s, calendar, through, now).value;
    SettleLiveExtends(s, calendar, through, now);
    if HasKey(s.ledger, SettlementKey(e.key)) {
      KeyStays(s.ledger, t.ledger, SettlementKey(e.key));
    } else {
      var unsettled := Filter(s.ledger, Unsettled(s.ledger));
      var sales := Sort(unsettled, ByEffectiveTime());
      FilterKeeps(s.ledger, Unsettled(s.ledger), e);
      SortKeepsElements(unsettled, ByEffectiveTime(), e);
      var m := SettleReceivables(s.account, sales, calendar, through).value;
      DueAreSettled(s.account, sales, calendar, through, e);
      var claimed, entries := ClaimAll(s, m.entries).value, RecordedAs(m.entries, now);
      ClaimsOnly(s, m.entries);
      InsertedEntries(claimed, entries);
      var k :| 0 <= k < |m.entries| && m.entries[k].key == SettlementKey(e.key);
      assert t.ledger[|s.ledger| + k] == entries[k];
    }
  }

  predicate DueSettled(ledger: seq<LedgerEntry>, after: seq<LedgerEntry>, calendar: Calendar, through: int) {
    forall i :: 0 <= i < |ledger| && DueSale(ledger[i], calendar, through) ==>
      HasKey(after, SettlementKey(ledger[i].key))
  }

  /** A reconciliation fails as a whole, or settles every sale whose settlement has begun. */
  lemma ReconcileLeaves(s: Store, data: Snapshot, universe: set<int>, through: int, now: int)
    ensures var o := ReconcileAccount(s, data, universe, through, now);
      && !o.Declined?
      && (o.Committed? ==> DueSettled(s.ledger, o.store.ledger, data.calendar, through))
  {
    hide SettleLive;
    hide ReconcileEach;
    hide Sort;
    hide Relevant;
    hide SettlementStart;
    hide HasKey;
    var o := ReconcileAccount(s, data, universe, through, now);
    if o.Committed? {
      var settled, actions := SettleLive(s, data.calendar, through, now).value, Sort(data.actions, ByEffectThenId());
      ReconcileEachExtends(settled, actions, |actions|, Relevant(s, universe), through, now);
      forall i | 0 <= i < |s.ledger| && DueSale(s.ledger[i], data.calendar, through)
        ensures HasKey(o.store.ledger, SettlementKey(s.ledger[i].key))
      {
        SettleLiveSettles(s, data.calendar, through, now, i);
        KeyStays(settled.ledger, o.store.ledger, SettlementKey(s.ledger[i].key));
      }
    }
  }

  lemma AdoptLeaves(s: Store, now: int)
    ensures var o := AdoptConfig(s, now);
      && o.Committed? && o.store == s.(account := o.store.account) && o.store.account.balances == s.account.balances
      && (o.store.account.pendingConfig.Some? ==> now < o.store.account.pendingConfig.value.effectiveAt)
  {
  }

  /** An evaluation is never declined: it commits or fails as a whole. */
  lemma EvaluateDecides(s: Store, data: Snapshot, now: int, run: EvaluationRun)
    ensures !EvaluateAccount(s, data, now, run).Declined?
  {
    hide Reserve;
    hide CancelBeforeOpen;
    hide BuildRebalance;
    hide ComputeNAV;
    hide ListPending;
    hide MayIssue;
    hide NextSession;
    hide NextSettlement;
    hide SessionAmong;
    hide SizeBatch;
  }

  // ---------- Every command ----------

  /** A desk whose reserves are what its open orders hold, and whose other buckets are the claims still open. */
  ghost predicate SoundDesk(s: Store) {
    Kept(s) && Matched(s.ledger, UnsettledCash) && Matched(s.ledger, DividendCash)
  }

  lemma OpenDeskIsSound(account: int, initialCash: int, createdAt: int)
    requires 0 < initialCash <= MAX_INT64
    ensures SoundDesk(OpenDesk(account, initialCash, createdAt))
  {
    OpenDeskIsKept(account, initialCash, createdAt);
    hide Kept;
  }

  lemma DeskMeans(s: Store)
    requires SoundDesk(s)
    ensures s.account.balances.reserved == Sum(s.orders, CashHeld())
    ensures s.account.balances.unsettled == Sum(s.ledger, Due(s.ledger, UnsettledCash))
    ensures s.account.balances.dividends == Sum(s.ledger, Due(s.ledger, DividendCash))
    ensures forall id :: 0 <= Reserved(s.positions, id) == Sum(s.orders, SharesHeld(id)) <= Held(s.positions, id)
    ensures forall n :: 0 <= n < |s.orders| ==>
      Times(s.ledger, FillKey(s.orders[n].id)) + Times(s.ledger, ReleaseKey(s.orders[n].id))
        == if s.orders[n].Terminal() then 1 else 0
  {
    KeptSums(s);
    assert SoundRows(s.positions);
    forall id
      ensures 0 <= Reserved(s.positions, id) <= Held(s.positions, id)
    {
      SumNonNegative(s.positions, ReservedSharesOf(id));
      SumMonotone(s.positions, ReservedSharesOf(id), SharesOf(id));
    }
    forall n | 0 <= n < |s.orders|
      ensures Times(s.ledger, FillKey(s.orders[n].id)) + Times(s.ledger, ReleaseKey(s.orders[n].id))
           == if s.orders[n].Terminal() then 1 else 0
    {
      assert Lifecycle(s.ledger, s.orders[n]);
    }
    hide Sum;
    hide Due;
  }

  /** Every command keeps the desk sound and rewrites nothing that is stored. */
  lemma RunKeepsSound(s: Store, c: Command)
    requires SoundDesk(s)
    ensures SoundDesk(Run(s, c).After(s)) && Extends(s, Run(s, c).After(s))
  {
    var t := Run(s, c).After(s);
    RunKeepsReserves(s, c);
    RunExtends(s, c);
    hide Kept;
    hide Matched;
    hide Run;
    GrowingKeepsMatched(s.ledger, t.ledger, UnsettledCash);
    GrowingKeepsMatched(s.ledger, t.ledger, DividendCash);
  }

  /** Every open order whose opening has come is still open on its terms and with its reserve. */
  ghost predicate OpenedSurvive(s: Store, t: Store, now: int) {
    forall n :: 0 <= n < |s.orders| && !s.orders[n].Terminal() && now >= s.orders[n].targetOpenAt ==> StaysOpen(s, t, n)
  }

  lemma RunSpares(s: Store, c: Command)
    requires SoundDesk(s) && !c.Execute? && !c.Reconcile?
    ensures OpenedSurvive(s, Run(s, c).After(s), c.now)
  {
    hide Kept;
    hide Matched;
    hide Run;
    hide StaysOpen;
    forall n | 0 <= n < |s.orders| && !s.orders[n].Terminal() && c.now >= s.orders[n].targetOpenAt
      ensures StaysOpen(s, Run(s, c).After(s), n)
    {
      OpenedOrdersSurvive(s, c, n);
    }
  }
}
