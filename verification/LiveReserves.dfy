// The reserves of a live account: under any interleaving of committed transactions, reserved cash and reserved shares
// are exactly what the stored open orders hold, and every reservation is closed once, by a fill or by a release.
module LiveReserves {
  import opened Outcomes
  import opened Money
  import opened Domain
  import opened Sums
  import opened Holdings
  import opened Ledger
  import opened Reservations
  import opened BookEvents
  import opened Live

  // ---------- The life of a reservation ----------

  function KeyIs(k: EventKey): LedgerEntry -> int {
    (e: LedgerEntry) => if e.key == k then 1 else 0
  }

  /** How many times an event is recorded. */
  function Times(ledger: seq<LedgerEntry>, k: EventKey): int {
    Sum(ledger, KeyIs(k))
  }

  /** The order an entry reserves for, fills or releases. */
  function OrderOf(k: EventKey): Option<OrderId> {
    match k
    case ReserveKey(id) => Some(id)
    case FillKey(id) => Some(id)
    case ReleaseKey(id) => Some(id)
    case _ => None
  }

  /** Cash an entry moves in or out of the reserve of an order. */
  function ReserveOf(id: OrderId): LedgerEntry -> int {
    (e: LedgerEntry) => if OrderOf(e.key) == Some(id) then e.delta.reserved else 0
  }

  /** Reserved once; closed once when terminal and not at all before; and what its entries leave reserved is what it
      holds. */
  ghost predicate Lifecycle(ledger: seq<LedgerEntry>, o: Order) {
    && Times(ledger, ReserveKey(o.id)) == 1
    && Times(ledger, FillKey(o.id)) + Times(ledger, ReleaseKey(o.id)) == (if o.Terminal() then 1 else 0)
    && Sum(ledger, ReserveOf(o.id)) == CashHeld()(o)
  }

  predicate DistinctIds(orders: seq<Order>) {
    forall i, j :: 0 <= i < j < |orders| ==> orders[i].id != orders[j].id
  }

  predicate Known(orders: seq<Order>, e: LedgerEntry) {
    OrderOf(e.key).Some? ==> exists n :: 0 <= n < |orders| && orders[n].id == OrderOf(e.key).value
  }

  function Start(initialCash: int, k: Bucket): int {
    if k == AvailableCash then initialCash else 0
  }

  /** Balances and holdings are the sums of the ledger. */
  ghost predicate LedgerSums(s: Store) {
    && (forall k: Bucket :: Amount(s.account.balances, k) == Start(s.account.initialCash, k) + Sum(s.ledger, In(k)))
    && (forall id :: Held(s.positions, id) == Sum(s.ledger, SharesIn(id)))
  }

  ghost predicate Lives(s: Store) {
    && DistinctIds(s.orders)
    && (forall i :: 0 <= i < |s.ledger| ==> Known(s.orders, s.ledger[i]))
    && (forall n :: 0 <= n < |s.orders| ==> Lifecycle(s.ledger, s.orders[n]))
  }

  ghost predicate Kept(s: Store) {
    Backed(s.account, s.positions, s.orders) && LedgerSums(s) && Lives(s)
  }

  lemma OpenDeskIsKept(account: int, initialCash: int, createdAt: int)
    requires 0 < initialCash <= MAX_INT64
    ensures Kept(OpenDesk(account, initialCash, createdAt))
  {
    var s := OpenDesk(account, initialCash, createdAt);
    forall k: Bucket
      ensures Amount(s.account.balances, k) == Start(initialCash, k) + Sum(s.ledger, In(k))
    {
    }
  }

  // ---------- One entry ----------

  /** An entry is recorded: the buckets move by its delta and the shares of its instrument by its quantity. */
  ghost predicate Logs(s: Store, t: Store, e: LedgerEntry) {
    && t.ledger == s.ledger + [e]
    && OnlyBalances(s.account, t.account.(version := s.account.version))
    && ApplyDelta(s.account.balances, e.delta) == Ok(t.account.balances)
    && (forall id :: Held(t.positions, id) == Held(s.positions, id) + SharesIn(id)(e))
  }

  lemma LogsKeepsSums(s: Store, t: Store, e: LedgerEntry)
    requires LedgerSums(s) && Logs(s, t, e)
    ensures LedgerSums(t)
  {
    forall k: Bucket
      ensures Amount(t.account.balances, k) == Start(t.account.initialCash, k) + Sum(t.ledger, In(k))
    {
      assert Amount(s.account.balances, k) == Start(s.account.initialCash, k) + Sum(s.ledger, In(k));
      SumAppend(s.ledger, e, In(k));
    }
    forall id
      ensures Held(t.positions, id) == Sum(t.ledger, SharesIn(id))
    {
      SumAppend(s.ledger, e, SharesIn(id));
    }
  }

  lemma TimesAppend(ledger: seq<LedgerEntry>, e: LedgerEntry, id: OrderId)
    ensures forall k :: Times(ledger + [e], k) == Times(ledger, k) + KeyIs(k)(e)
    ensures Sum(ledger + [e], ReserveOf(id)) == Sum(ledger, ReserveOf(id)) + ReserveOf(id)(e)
  {
    forall k
      ensures Times(ledger + [e], k) == Times(ledger, k) + KeyIs(k)(e)
    {
      SumAppend(ledger, e, KeyIs(k));
    }
    SumAppend(ledger, e, ReserveOf(id));
  }

  /** An entry about another order, or about none, leaves the life of an order as it was. */
  lemma OtherEntry(ledger: seq<LedgerEntry>, e: LedgerEntry, o: Order)
    requires Lifecycle(ledger, o) && OrderOf(e.key) != Some(o.id)
    ensures Lifecycle(ledger + [e], o)
  {
    TimesAppend(ledger, e, o.id);
    hide Sum;
  }

  lemma NeverMentioned(s: Store, id: OrderId)
    requires Lives(s) && Find(s.orders, id) == |s.orders|
    ensures forall k :: OrderOf(k) == Some(id) ==> Times(s.ledger, k) == 0
    ensures Sum(s.ledger, ReserveOf(id)) == 0
  {
    forall e | e in s.ledger
      ensures OrderOf(e.key) != Some(id)
    {
      var i :| 0 <= i < |s.ledger| && s.ledger[i] == e;
      assert Known(s.orders, s.ledger[i]);
    }
    forall k | OrderOf(k) == Some(id)
      ensures Times(s.ledger, k) == 0
    {
      SumIsZero(s.ledger, KeyIs(k));
    }
    SumIsZero(s.ledger, ReserveOf(id));
  }

  // ---------- Reserving ----------

  /** A new order's only entry is its reservation. */
  lemma NewLife(s: Store, o: Order, e: LedgerEntry)
    requires Lives(s) && Find(s.orders, o.id) == |s.orders| && !o.Terminal()
    requires e.key == ReserveKey(o.id) && e.delta.reserved == CashHeld()(o)
    ensures Lifecycle(s.ledger + [e], o)
  {
    NeverMentioned(s, o.id);
    TimesAppend(s.ledger, e, o.id);
    hide Sum;
    hide Lives;
  }

  lemma ReservedLives(s: Store, o: Order, e: LedgerEntry)
    requires Lives(s) && Find(s.orders, o.id) == |s.orders| && !o.Terminal()
    requires e.key == ReserveKey(o.id) && e.delta.reserved == CashHeld()(o)
    ensures Lives(s.(orders := s.orders + [o], ledger := s.ledger + [e]))
  {
    var t := s.(orders := s.orders + [o], ledger := s.ledger + [e]);
    NewLife(s, o, e);
    hide Lifecycle;
    hide Sum;
    forall n | 0 <= n < |t.orders|
      ensures Lifecycle(t.ledger, t.orders[n])
    {
      if n < |s.orders| {
        OtherEntry(s.ledger, e, s.orders[n]);
      }
    }
    forall i | 0 <= i < |t.ledger|
      ensures Known(t.orders, t.ledger[i])
    {
      if i < |s.ledger| {
        StillKnown(s.orders, t.orders, s.ledger[i]);
      } else {
        assert t.orders[|s.orders|].id == o.id;
      }
    }
  }

  lemma StillKnown(orders: seq<Order>, after: seq<Order>, e: LedgerEntry)
    requires Known(orders, e) && |orders| <= |after|
    requires forall n :: 0 <= n < |orders| ==> after[n].id == orders[n].id
    ensures Known(after, e)
  {
    if OrderOf(e.key).Some? {
      var n :| 0 <= n < |orders| && orders[n].id == OrderOf(e.key).value;
      assert after[n].id == OrderOf(e.key).value;
    }
  }

  lemma {:induction false} InsertedOrders(s: Store, batch: seq<Order>)
    requires InsertOrders(s, batch).Ok?
    ensures InsertOrders(s, batch).value == s.(orders := s.orders + batch)
  {
    if batch == [] {
      assert s.orders + batch == s.orders;
    } else {
      var init, o := batch[..|batch| - 1], batch[|batch| - 1];
      InsertedOrders(s, init);
      assert s.orders + init + [o] == s.orders + batch;
    }
  }

  lemma {:induction false} InsertedEntries(s: Store, entries: seq<LedgerEntry>)
    requires InsertLedger(s, entries).Ok?
    ensures InsertLedger(s, entries).value == s.(ledger := s.ledger + entries)
  {
    if entries == [] {
      assert s.ledger + entries == s.ledger;
    } else {
      var init, e := entries[..|entries| - 1], entries[|entries| - 1];
      InsertedEntries(s, init);
      assert s.ledger + init + [e] == s.ledger + entries;
    }
  }

  /** The store after a batch has been reserved, before the account is saved. */
  function WithBatch(s: Store, batch: seq<Order>, m: Mutation): Store {
    s.(account := m.account, positions := m.positions, orders := s.orders + batch, ledger := s.ledger + m.entries)
  }

  lemma ReserveLogs(s: Store, o: Order, m: Mutation)
    requires Backed(s.account, s.positions, s.orders) && ReserveOne(s.account, s.positions, o) == Ok(m)
    ensures var e := ReserveEntry(s.account, o);
      && m.entries == [e] && Logs(s, WithBatch(s, [o], m), e) && !o.Terminal() && e.delta.reserved == CashHeld()(o)
      && Backed(m.account, m.positions, s.orders + [o])
  {
    ReserveKeepsBacking(s.account, s.positions, s.orders, o);
    hide Backed;
    hide Sum;
    hide ReserveShares;
  }

  lemma ReserveOneKeeps(s: Store, o: Order)
    requires Kept(s) && Find(s.orders, o.id) == |s.orders| && ReserveOne(s.account, s.positions, o).Ok?
    ensures Kept(WithBatch(s, [o], ReserveOne(s.account, s.positions, o).value))
  {
    hide Backed;
    hide Lifecycle;
    hide Sum;
    hide ReserveOne;
    hide ReserveEntry;
    var m := ReserveOne(s.account, s.positions, o).value;
    var t, e := WithBatch(s, [o], m), ReserveEntry(s.account, o);
    ReserveLogs(s, o, m);
    assert e.key == ReserveKey(o.id) by { ReserveEntryKey(s.account, o); }
    ReservedLives(s, o, e);
    LogsKeepsSums(s, t, e);
    hide LedgerSums;
    assert Lives(s.(orders := s.orders + [o], ledger := s.ledger + [e]));
  }

  lemma ReserveEntryKey(account: Account, o: Order)
    ensures ReserveEntry(account, o).key == ReserveKey(o.id)
  {
  }

  lemma {:induction false} BatchKeeps(s: Store, batch: seq<Order>)
    requires Kept(s) && ReserveOrders(s.account, s.positions, batch).Ok? && InsertOrders(s, batch).Ok?
    ensures Kept(WithBatch(s, batch, ReserveOrders(s.account, s.positions, batch).value))
  {
    hide Kept;
    hide ReserveOne;
    var m := ReserveOrders(s.account, s.positions, batch).value;
    if batch == [] {
      assert WithBatch(s, batch, m) == s by {
        assert s.orders + batch == s.orders && s.ledger + m.entries == s.ledger;
      }
    } else {
      var init, o := batch[..|batch| - 1], batch[|batch| - 1];
      BatchKeeps(s, init);
      InsertedOrders(s, init);
      var before := ReserveOrders(s.account, s.positions, init).value;
      var mid := WithBatch(s, init, before);
      ReserveOneKeeps(mid, o);
      assert mid.orders + [o] == s.orders + batch;
      assert mid.ledger + ReserveOne(mid.account, mid.positions, o).value.entries == s.ledger + m.entries;
    }
  }

  /** Any change of the account that leaves its balances alone. */
  lemma AccountKeeps(s: Store, a: Account)
    requires Kept(s) && a.balances == s.account.balances && a.id == s.account.id
    requires a.initialCash == s.account.initialCash
    ensures Kept(s.(account := a))
  {
    hide Lifecycle;
    hide Sum;
  }

  lemma ReserveKeeps(s: Store, batch: seq<Order>)
    requires Kept(s)
    ensures Kept(Reserve(s, batch).After(s))
  {
    hide Kept;
    if batch != [] && ReserveOrders(s.account, s.positions, batch).Ok? && InsertOrders(s, batch).Ok? {
      var m := ReserveOrders(s.account, s.positions, batch).value;
      BatchKeeps(s, batch);
      InsertedOrders(s, batch);
      var t := InsertOrders(s, batch).value;
      if InsertLedger(t, m.entries).Ok? {
        InsertedEntries(t, m.entries);
        var u := WithBatch(s, batch, m);
        AccountKeeps(u, u.account.(version := u.account.version + 1));
      }
    }
  }

  // ---------- Closing an order ----------

  lemma FindStored(orders: seq<Order>, o: Order)
    requires DistinctIds(orders) && o in orders
    ensures Find(orders, o.id) < |orders| && orders[Find(orders, o.id)] == o
  {
    var n :| 0 <= n < |orders| && orders[n] == o;
  }

  /** One order is changed, and keeps its number. */
  predicate OnlyOrder(s: Store, t: Store, id: OrderId) {
    && |t.orders| == |s.orders|
    && (forall n :: 0 <= n < |s.orders| ==>
          t.orders[n].id == s.orders[n].id && (s.orders[n].id != id ==> t.orders[n] == s.orders[n]))
  }

  lemma ClosedLives(s: Store, t: Store, n: nat, e: LedgerEntry)
    requires Lives(s) && n < |s.orders| && !s.orders[n].Terminal()
    requires |t.orders| == |s.orders| && t.orders == s.orders[n := t.orders[n]]
    requires t.orders[n].id == s.orders[n].id && t.orders[n].Terminal()
    requires t.ledger == s.ledger + [e] && (e.key == FillKey(s.orders[n].id) || e.key == ReleaseKey(s.orders[n].id))
    requires e.delta.reserved == -CashHeld()(s.orders[n])
    ensures Lives(t)
  {
    var o := s.orders[n];
    TimesAppend(s.ledger, e, o.id);
    assert Lifecycle(s.ledger, o);
    forall k | 0 <= k < |t.orders|
      ensures Lifecycle(t.ledger, t.orders[k])
    {
      if k != n {
        OtherEntry(s.ledger, e, s.orders[k]);
      }
    }
    hide Lifecycle;
    hide Sum;
    forall i | 0 <= i < |t.ledger|
      ensures Known(t.orders, t.ledger[i])
    {
      if i < |s.ledger| {
        StillKnown(s.orders, t.orders, s.ledger[i]);
      } else {
        assert t.orders[n].id == o.id;
      }
    }
  }

  lemma ClosingKeeps(s: Store, t: Store, n: nat, e: LedgerEntry)
    requires Kept(s) && n < |s.orders| && !s.orders[n].Terminal()
    requires |t.orders| == |s.orders| && t.orders == s.orders[n := t.orders[n]]
    requires t.orders[n].id == s.orders[n].id && t.orders[n].Terminal()
    requires Logs(s, t, e) && (e.key == FillKey(s.orders[n].id) || e.key == ReleaseKey(s.orders[n].id))
    requires e.delta.reserved == -CashHeld()(s.orders[n])
    requires Backed(t.account, t.positions, t.orders)
    ensures Kept(t) && OnlyOrder(s, t, s.orders[n].id)
  {
    LogsKeepsSums(s, t, e);
    ClosedLives(s, t, n, e);
    hide Backed;
    hide LedgerSums;
    hide Lives;
  }

  /** What closing an order with one entry does to the store. */
  lemma CloseWithShape(s: Store, o: Order, closed: Order, m: Mutation, e: LedgerEntry) returns (n: nat)
    requires DistinctIds(s.orders) && o in s.orders && closed.id == o.id
    requires m.entries == [e] && CloseWith(s, o, closed, m).Ok?
    ensures n < |s.orders| && s.orders[n] == o && !o.Terminal()
    ensures var t := CloseWith(s, o, closed, m).value;
      && t == s.(account := m.account, positions := m.positions, ledger := s.ledger + [e], orders := t.orders)
      && |t.orders| == |s.orders|
      && t.orders == s.orders[n :=
                              o.(state := closed.state, reason := closed.reason, reservedCash := closed.reservedCash,
                                      reservedQuantity := closed.reservedQuantity, version := o.version + 1)]
  {
    FindStored(s.orders, o);
    n := Find(s.orders, o.id);
    InsertedEntries(SaveOrder(s, closed, o.version).value, m.entries);
  }

  /** Only the times of an entry differ. */
  predicate SameMoney(e: LedgerEntry, f: LedgerEntry) {
    f == e.(effectiveAt := f.effectiveAt, recordedAt := f.recordedAt)
  }

  lemma ReleaseKeeps(s: Store, o: Order, why: Reason, now: int, state: OrderState, reason: Reason, m: Mutation,
                     e: LedgerEntry)
    requires Kept(s) && o in s.orders && !o.Terminal() && state != Pending && state != AwaitingBar
    requires ReleaseOrder(s.account, s.positions, o, why, now).Ok?
    requires var r := ReleaseOrder(s.account, s.positions, o, why, now).value;
      m == r.(entries := [e]) && SameMoney(ReleaseEntry(s.account, o, Released(why), now), e)
    requires CloseWith(s, o, Closed(o, state, reason), m).Ok?
    ensures var t := CloseWith(s, o, Closed(o, state, reason), m).value;
      Kept(t) && OnlyOrder(s, t, o.id)
  {
    assert DistinctIds(s.orders);
    hide Kept;
    var n := CloseWithShape(s, o, Closed(o, state, reason), m, e);
    var t := CloseWith(s, o, Closed(o, state, reason), m).value;
    hide CloseWith;
    KeptIsBacked(s);
    ReleaseKeepsBacking(s.account, s.positions, s.orders, n, t.orders[n], why, now);
    assert Logs(s, t, e);
    hide Backed;
    hide Logs;
    ClosingKeeps(s, t, n, e);
  }

  lemma KeptIsBacked(s: Store)
    requires Kept(s)
    ensures Backed(s.account, s.positions, s.orders) && DistinctIds(s.orders)
  {
    hide Backed;
    hide LedgerSums;
  }

  /** The entry of an accepted fill. */
  lemma FillRecords(account: Account, positions: seq<Position>, fill: Fill) returns (e: LedgerEntry)
    requires ApplyFill(account, positions, fill).Ok?
    ensures ApplyFill(account, positions, fill).value.entries == [e]
    ensures e.key == FillKey(fill.orderId) && e.instrument == fill.instrument
    ensures e.quantityDelta == SharesBought(fill, fill.instrument)
    ensures e.delta.reserved == (if fill.side == Buy then -fill.reservedCash else 0)
    ensures ApplyDelta(account.balances, e.delta) == Ok(ApplyFill(account, positions, fill).value.account.balances)
  {
    hide GrossValue;
    hide ProportionalCost;
    hide SortPositions;
    hide ApplyDelta;
    e := ApplyFill(account, positions, fill).value.entries[0];
  }

  /** The account and the rows after a fill, with its entry. */
  lemma FillLogs(s: Store, t: Store, n: nat, fill: Fill, m: Mutation, e: LedgerEntry)
    requires Backed(s.account, s.positions, s.orders) && n < |s.orders| && !s.orders[n].Terminal()
    requires Closes(fill, s.orders[n])
    requires ApplyFill(s.account, s.positions, fill) == Ok(m)
    requires e.instrument == fill.instrument && e.quantityDelta == SharesBought(fill, fill.instrument)
    requires ApplyDelta(s.account.balances, e.delta) == Ok(m.account.balances)
    requires t.account == m.account && t.positions == m.positions && t.ledger == s.ledger + [e]
    requires |t.orders| == |s.orders| && t.orders == s.orders[n := t.orders[n]] && t.orders[n].Terminal()
    ensures Logs(s, t, e) && Backed(t.account, t.positions, t.orders)
  {
    hide ApplyFill;
    hide ApplyDelta;
    assert SoundOrder(s.account.id, s.orders[n]) && SoundRows(s.positions);
    FillRows(s.account, s.positions, fill);
    FillKeepsBacking(s.account, s.positions, s.orders, n, t.orders[n], fill);
    hide Backed;
    hide Sum;
  }

  lemma FillKeeps(s: Store, o: Order, fill: Fill, state: OrderState, reason: Reason)
    requires Kept(s) && o in s.orders && !o.Terminal() && Closes(fill, o) && state != Pending && state != AwaitingBar
    requires FillLive(s, o, fill, state, reason).Ok?
    ensures var t := FillLive(s, o, fill, state, reason).value;
      Kept(t) && OnlyOrder(s, t, o.id)
  {
    KeptIsBacked(s);
    hide Kept;
    hide ApplyFill;
    hide ApplyDelta;
    hide Backed;
    hide Logs;
    var m := ApplyFill(s.account, s.positions, fill).value;
    var e := FillRecords(s.account, s.positions, fill);
    var n := CloseWithShape(s, o, Closed(o, state, reason), m, e);
    var t := CloseWith(s, o, Closed(o, state, reason), m).value;
    hide CloseWith;
    hide DistinctIds;
    FillLogs(s, t, n, fill, m, e);
    ClosingKeeps(s, t, n, e);
    hide OnlyOrder;
    FillsKeep(t, t.fills + [fill]);
    SameOrders(s, t, t.(fills := t.fills + [fill]), o.id);
  }

  lemma SameOrders(s: Store, t: Store, u: Store, id: OrderId)
    requires OnlyOrder(s, t, id) && u.orders == t.orders
    ensures OnlyOrder(s, u, id)
  {
  }

  lemma FillsKeep(s: Store, fills: seq<Fill>)
    requires Kept(s)
    ensures Kept(s.(fills := fills))
  {
    hide Backed;
    hide Lifecycle;
    hide Sum;
  }

  // ---------- Advancing an order ----------

  /** The same order still open, at most advanced to wait for its bar. */
  predicate StillOpen(o: Order, p: Order) {
    p == o.(state := p.state, version := p.version) && !o.Terminal() && !p.Terminal()
  }

  lemma AdvancedIsBacked(account: Account, positions: seq<Position>, orders: seq<Order>, n: nat, p: Order)
    requires Backed(account, positions, orders) && n < |orders| && StillOpen(orders[n], p)
    ensures Backed(account, positions, orders[n := p])
  {
    assert SoundOrder(account.id, orders[n]);
    SumUpdate(orders, n, p, CashHeld());
    forall id
      ensures Reserved(positions, id) == Sum(orders[n := p], SharesHeld(id))
    {
      SumUpdate(orders, n, p, SharesHeld(id));
      assert Reserved(positions, id) == Sum(orders, SharesHeld(id));
    }
    hide Sum;
  }

  lemma AdvancedLives(s: Store, n: nat, p: Order)
    requires Lives(s) && n < |s.orders| && StillOpen(s.orders[n], p)
    ensures Lives(s.(orders := s.orders[n := p]))
  {
    var t := s.(orders := s.orders[n := p]);
    hide Sum;
    assert Lifecycle(s.ledger, s.orders[n]);
    assert Lifecycle(s.ledger, p);
    hide Lifecycle;
    forall i | 0 <= i < |t.ledger|
      ensures Known(t.orders, t.ledger[i])
    {
      StillKnown(s.orders, t.orders, s.ledger[i]);
    }
  }

  lemma AdvanceKeepsReserves(s: Store, o: Order, now: int)
    requires Kept(s) && o in s.orders && SaveOrder(s, AdvanceOrder(o, now), o.version).Ok?
    ensures var t := SaveOrder(s, AdvanceOrder(o, now), o.version).value;
      Kept(t) && OnlyOrder(s, t, o.id)
  {
    hide Backed;
    hide Lives;
    KeptIsBacked(s);
    FindStored(s.orders, o);
    var n := Find(s.orders, o.id);
    var p := SaveOrder(s, AdvanceOrder(o, now), o.version).value.orders[n];
    AdvancedIsBacked(s.account, s.positions, s.orders, n, p);
    AdvancedLives(s, n, p);
    hide Sum;
  }
}
