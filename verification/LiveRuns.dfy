/** Every command of the live desk keeps the meaning of the reserves, whatever order the commands come in. */
module LiveRuns {
  import opened Outcomes
  import opened Money
  import opened Domain
  import opened Calendars
  import opened Lists
  import opened Sums
  import opened Holdings
  import opened Ledger
  import opened Reservations
  import opened Snapshots
  import opened Risk
  import opened Rebalance
  import opened Execution
  import Replay
  import opened BookEvents
  import BookMeaning
  import opened Live
  import opened LiveReserves

  // ---------- The list of open orders ----------

  function IdIs(id: OrderId): Order -> int {
    (o: Order) => if o.id == id then 1 else 0
  }

  lemma {:induction false} CountIds(orders: seq<Order>, id: OrderId)
    requires DistinctIds(orders)
    ensures 0 <= Sum(orders, IdIs(id)) <= 1
  {
    if orders != [] {
      var init, last := orders[..|orders| - 1], orders[|orders| - 1];
      CountIds(init, id);
      if last.id == id {
        SumIsZero(init, IdIs(id));
      }
    }
  }

  lemma PermutedIds(xs: seq<Order>, ys: seq<Order>)
    requires DistinctIds(xs) && multiset(xs) == multiset(ys)
    ensures DistinctIds(ys)
  {
    forall i, j | 0 <= i < j < |ys|
      ensures ys[i].id != ys[j].id
    {
      if ys[i].id == ys[j].id {
        var id := ys[i].id;
        CountIds(xs, id);
        SumPermuted(xs, ys, IdIs(id));
        SumSplit(ys, j, IdIs(id));
        TermWithinSum(ys[..j], i, IdIs(id));
        SumNonNegative(ys[j + 1..], IdIs(id));
      }
    }
  }

  lemma {:induction false} FilteredIds(orders: seq<Order>, keep: Order -> bool)
    requires DistinctIds(orders)
    ensures DistinctIds(Filter(orders, keep))
  {
    if orders != [] {
      var init, last := orders[..|orders| - 1], orders[|orders| - 1];
      FilteredIds(init, keep);
      forall i | 0 <= i < |Filter(init, keep)|
        ensures Filter(init, keep)[i].id != last.id
      {
        FilterKeeps(init, keep, Filter(init, keep)[i]);
      }
    }
  }

  /** The orders still to be processed are stored as they were listed. */
  predicate StillThere(s: Store, pending: seq<Order>, n: nat) {
    forall j :: n <= j < |pending| ==> pending[j] in s.orders && !pending[j].Terminal()
  }

  lemma PendingAreStored(s: Store)
    requires DistinctIds(s.orders)
    ensures DistinctIds(ListPending(s.orders)) && StillThere(s, ListPending(s.orders), 0)
  {
    var open := Filter(s.orders, IsOpen());
    FilteredIds(s.orders, IsOpen());
    SortPermutes(open, ByInstrumentThenId());
    PermutedIds(open, ListPending(s.orders));
    forall j | 0 <= j < |ListPending(s.orders)|
      ensures ListPending(s.orders)[j] in s.orders && !ListPending(s.orders)[j].Terminal()
    {
      SortKeepsElements(open, ByInstrumentThenId(), ListPending(s.orders)[j]);
      FilterKeeps(s.orders, IsOpen(), ListPending(s.orders)[j]);
    }
  }

  lemma ResortedAreStored(s: Store)
    requires DistinctIds(s.orders)
    ensures var pending := Sort(ListPending(s.orders), BySideThenName());
      DistinctIds(pending) && StillThere(s, pending, 0)
  {
    var listed := ListPending(s.orders);
    PendingAreStored(s);
    SortPermutes(listed, BySideThenName());
    PermutedIds(listed, Sort(listed, BySideThenName()));
    forall j | 0 <= j < |Sort(listed, BySideThenName())|
      ensures Sort(listed, BySideThenName())[j] in listed
    {
      SortKeepsElements(listed, BySideThenName(), Sort(listed, BySideThenName())[j]);
    }
    hide ListPending;
  }

  lemma OneFewer(s: Store, t: Store, pending: seq<Order>, n: nat)
    requires n < |pending| && DistinctIds(pending) && StillThere(s, pending, n) && OnlyOrder(s, t, pending[n].id)
    ensures StillThere(t, pending, n + 1)
  {
    forall j | n + 1 <= j < |pending|
      ensures pending[j] in t.orders && !pending[j].Terminal()
    {
      var k :| 0 <= k < |s.orders| && s.orders[k] == pending[j];
      assert t.orders[k] == s.orders[k];
    }
  }

  lemma Unchanged(s: Store, id: OrderId)
    ensures OnlyOrder(s, s, id)
  {
  }

  // ---------- Cancelling before the opening ----------

  lemma CancelOneKeeps(s: Store, o: Order, now: int, reason: Reason, buysOnly: bool)
    requires Kept(s) && o in s.orders && !o.Terminal() && CancelOne(s, o, now, reason, buysOnly).Ok?
    ensures var t := CancelOne(s, o, now, reason, buysOnly).value;
      Kept(t) && OnlyOrder(s, t, o.id)
  {
    hide Kept;
    hide SaveOrder;
    hide CloseWith;
    hide ApplyDelta;
    hide ReleaseShares;
    var advanced := AdvanceOrder(o, now);
    if advanced.state != o.state {
      AdvanceKeepsReserves(s, o, now);
    } else if !o.CancellableAt(now) || (buysOnly && o.side != Buy) {
      Unchanged(s, o.id);
    } else {
      var m := ReleaseOrder(s.account, s.positions, o, reason, now).value;
      ReleaseKeeps(s, o, reason, now, Cancelled, reason, m, ReleaseEntry(s.account, o, Released(reason), now));
    }
  }

  lemma {:induction false} CancelEachKeeps(s: Store, pending: seq<Order>, n: nat, now: int, reason: Reason,
                                           buysOnly: bool)
    requires n <= |pending| && Kept(s) && DistinctIds(pending) && StillThere(s, pending, 0)
    requires CancelEach(s, pending, n, now, reason, buysOnly).Ok?
    ensures var t := CancelEach(s, pending, n, now, reason, buysOnly).value;
      Kept(t) && StillThere(t, pending, n)
  {
    hide Kept;
    hide CancelOne;
    hide DistinctIds;
    hide OnlyOrder;
    if n > 0 {
      CancelEachKeeps(s, pending, n - 1, now, reason, buysOnly);
      var before := CancelEach(s, pending, n - 1, now, reason, buysOnly).value;
      CancelOneKeeps(before, pending[n - 1], now, reason, buysOnly);
      OneFewer(before, CancelOne(before, pending[n - 1], now, reason, buysOnly).value, pending, n - 1);
    }
  }

  lemma CancelBeforeOpenKeeps(s: Store, now: int, reason: Reason, buysOnly: bool)
    requires Kept(s) && CancelBeforeOpen(s, now, reason, buysOnly).Ok?
    ensures Kept(CancelBeforeOpen(s, now, reason, buysOnly).value)
  {
    KeptIsBacked(s);
    PendingAreStored(s);
    hide Kept;
    hide CancelEach;
    hide ListPending;
    CancelEachKeeps(s, ListPending(s.orders), |ListPending(s.orders)|, now, reason, buysOnly);
  }

  // ---------- Executing ----------

  lemma LiveFillCloses(s: Store, data: Snapshot, o: Order, peak: int, now: int)
    requires LiveMatch(s, data, o, peak, now).Ok? && LiveMatch(s, data, o, peak, now).value.fill.Some?
    ensures Closes(LiveMatch(s, data, o, peak, now).value.fill.value, o)
  {
    hide ComputeNAV;
    hide MatchAtOpen;
    hide CapacityLimit;
    hide SelectSnapshot;
    hide OpeningsFor;
    hide ListPending;
    hide Sum;
    var date, openings := DateOf(o.targetOpenAt), OpeningsFor(data.bars, o);
    var prior := SelectSnapshot(data, o.targetOpenAt - 1);
    var nav := ComputeNAV(s.account, s.positions, prior, openings).value;
    MatchedFillIsAcceptable(MatchInput(
      o, At(openings, o.instrument),
      NotBelowZero(CapacityLimit(s.orders, date, o.instrument).value - Sum(s.fills, FilledOn(date, o.instrument))),
      PortfolioInput(s.account, s.positions, ListPending(s.orders), prior, Evaluation(false, []), s.account.policy, nav,
                     peak, Sum(s.fills, GrossOn(date)), openings, StrategyParameters([], 0.0, 0.0, 0.0, 0)),
      now));
    hide Acceptable;
  }

  lemma ReleaseLiveKeeps(s: Store, o: Order, state: OrderState, reason: Reason, at: int, now: int)
    requires Kept(s) && o in s.orders && !o.Terminal() && state != Pending && state != AwaitingBar
    requires ReleaseLive(s, o, state, reason, at, now).Ok?
    ensures var t := ReleaseLive(s, o, state, reason, at, now).value;
      Kept(t) && OnlyOrder(s, t, o.id)
  {
    hide Kept;
    hide CloseWith;
    hide ApplyDelta;
    hide ReleaseShares;
    var r := ReleaseOrder(s.account, s.positions, o, reason, now).value;
    var e := ReleaseEntry(s.account, o, Released(reason), now).(effectiveAt := at);
    assert EffectiveAs(r.entries, at) == [e];
    ReleaseKeeps(s, o, reason, now, state, reason, r.(entries := [e]), e);
  }

  lemma ExecuteOneKeeps(s: Store, data: Snapshot, o: Order, peak: int, now: int)
    requires Kept(s) && o in s.orders && !o.Terminal() && ExecuteOne(s, data, o, peak, now).Ok?
    ensures var t := ExecuteOne(s, data, o, peak, now).value;
      Kept(t) && OnlyOrder(s, t, o.id)
  {
    hide Kept;
    hide Tradable;
    hide LiveMatch;
    hide FillLive;
    hide ReleaseLive;
    hide SaveOrder;
    hide ExecutionBlocked;
    var advanced := AdvanceOrder(o, now);
    if Tradable(s, data, advanced) {
      var matched := LiveMatch(s, data, advanced, peak, now).value;
      match matched.fill
      case Some(fill) =>
        LiveFillCloses(s, data, advanced, peak, now);
        assert Closes(fill, o);
        FillKeeps(s, o, fill, if matched.cancelledQuantity > 0 then PartiallyFilled else Filled, matched.reason);
      case None =>
        ReleaseLiveKeeps(s, o, Rejected, matched.reason, advanced.targetOpenAt, now);
    } else if now < advanced.expiresAt {
      if o.state != advanced.state {
        AdvanceKeepsReserves(s, o, now);
      } else {
        Unchanged(s, o.id);
      }
    } else {
      ReleaseLiveKeeps(s, o, Expired, if ExecutionBlocked(s, data, advanced) then ActionUnresolved else DataUnavailable,
                       advanced.expiresAt, now);
    }
  }

  lemma {:induction false} ExecuteEachKeeps(s: Store, data: Snapshot, pending: seq<Order>, n: nat, peak: int, now: int,
                                            date: Option<int>)
    requires n <= |pending| && Kept(s) && DistinctIds(pending) && StillThere(s, pending, 0)
    requires ExecuteEach(s, data, pending, n, peak, now, date).Ok?
    ensures var t := ExecuteEach(s, data, pending, n, peak, now, date).value;
      Kept(t) && StillThere(t, pending, n)
  {
    hide Kept;
    hide ExecuteOne;
    hide DistinctIds;
    hide OnlyOrder;
    if n > 0 {
      ExecuteEachKeeps(s, data, pending, n - 1, peak, now, date);
      var before := ExecuteEach(s, data, pending, n - 1, peak, now, date).value;
      if DueOn(pending[n - 1], now, date) {
        ExecuteOneKeeps(before, data, pending[n - 1], peak, now);
        OneFewer(before, ExecuteOne(before, data, pending[n - 1], peak, now).value, pending, n - 1);
      }
    }
  }

  lemma SaveKeeps(before: Store, s: Store)
    requires Kept(s)
    ensures Kept(SaveAccount(s)) && Kept(SaveIfChanged(before, s))
  {
    hide Kept;
    AccountKeeps(s, s.account.(version := s.account.version + 1));
  }

  lemma ExecuteKeepsReserves(s: Store, data: Snapshot, peak: int, now: int, date: Option<int>)
    requires Kept(s)
    ensures Kept(ExecuteOrders(s, data, peak, now, date).After(s))
  {
    KeptIsBacked(s);
    ResortedAreStored(s);
    hide Kept;
    hide ExecuteEach;
    hide ListPending;
    hide Sort;
    hide SaveIfChanged;
    var pending := Sort(ListPending(s.orders), BySideThenName());
    if ExecuteEach(s, data, pending, |pending|, peak, now, date).Ok? {
      ExecuteEachKeeps(s, data, pending, |pending|, peak, now, date);
      SaveKeeps(s, ExecuteEach(s, data, pending, |pending|, peak, now, date).value);
    }
  }

  // ---------- Entries about no order ----------

  lemma {:induction false} LivesExtends(s: Store, entries: seq<LedgerEntry>)
    requires Lives(s) && forall i :: 0 <= i < |entries| ==> OrderOf(entries[i].key).None?
    ensures Lives(s.(ledger := s.ledger + entries))
  {
    if entries == [] {
      assert s.ledger + entries == s.ledger;
    } else {
      var init, e := entries[..|entries| - 1], entries[|entries| - 1];
      LivesExtends(s, init);
      var mid := s.(ledger := s.ledger + init);
      assert mid.ledger + [e] == s.ledger + entries;
      EntryLives(mid, e);
    }
  }

  lemma EntryLives(s: Store, e: LedgerEntry)
    requires Lives(s) && OrderOf(e.key).None?
    ensures Lives(s.(ledger := s.ledger + [e]))
  {
    forall n | 0 <= n < |s.orders|
      ensures Lifecycle(s.ledger + [e], s.orders[n])
    {
      OtherEntry(s.ledger, e, s.orders[n]);
    }
    hide Lifecycle;
  }

  /** Only orders, balances, positions and the ledger matter. */
  lemma RecordsKeep(s: Store, recorded: map<int, CorporateAction>, claims: set<EventKey>)
    requires Kept(s)
    ensures Kept(s.(recorded := recorded, claims := claims))
  {
    hide Backed;
    hide Lifecycle;
    hide Sum;
  }

  lemma EntryKeeps(s: Store, t: Store, e: LedgerEntry)
    requires Kept(s) && Logs(s, t, e) && OrderOf(e.key).None? && t.orders == s.orders
    requires Backed(t.account, t.positions, t.orders)
    ensures Kept(t)
  {
    LogsKeepsSums(s, t, e);
    EntryLives(s, e);
    hide Backed;
    hide LedgerSums;
    hide Lifecycle;
    assert Lives(t);
  }

  // ---------- Settlement ----------

  lemma {:induction false} RecordedSums(entries: seq<LedgerEntry>, now: int)
    ensures forall k: Bucket :: Sum(RecordedAs(entries, now), In(k)) == Sum(entries, In(k))
    ensures forall id :: Sum(RecordedAs(entries, now), SharesIn(id)) == Sum(entries, SharesIn(id))
  {
    if entries == [] {
      assert RecordedAs(entries, now) == [];
    } else {
      var init, e := entries[..|entries| - 1], entries[|entries| - 1];
      RecordedSums(init, now);
      assert RecordedAs(entries, now) == RecordedAs(init, now) + [e.(recordedAt := now)];
      hide RecordedAs;
      forall k: Bucket
        ensures Sum(RecordedAs(entries, now), In(k)) == Sum(entries, In(k))
      {
        SumAppend(RecordedAs(init, now), e.(recordedAt := now), In(k));
      }
      forall id
        ensures Sum(RecordedAs(entries, now), SharesIn(id)) == Sum(entries, SharesIn(id))
      {
        SumAppend(RecordedAs(init, now), e.(recordedAt := now), SharesIn(id));
      }
    }
  }

  lemma SettledSums(s: Store, sales: seq<LedgerEntry>, calendar: Calendar, through: int, now: int, m: CashMutation)
    requires LedgerSums(s) && BookMeaning.SettlesCash(s.account, sales, calendar, through, m)
    ensures LedgerSums(s.(account := m.account, ledger := s.ledger + RecordedAs(m.entries, now)))
  {
    RecordedSums(m.entries, now);
    BookMeaning.SettlementSums([], m.entries, through, {}, {});
    assert [] + m.entries == m.entries;
    forall k: Bucket
      ensures Amount(m.account.balances, k)
           == Start(m.account.initialCash, k) + Sum(s.ledger + RecordedAs(m.entries, now), In(k))
    {
      assert Amount(s.account.balances, k) == Start(s.account.initialCash, k) + Sum(s.ledger, In(k));
      SumConcat(s.ledger, RecordedAs(m.entries, now), In(k));
    }
    forall id
      ensures Held(s.positions, id) == Sum(s.ledger + RecordedAs(m.entries, now), SharesIn(id))
    {
      SumConcat(s.ledger, RecordedAs(m.entries, now), SharesIn(id));
    }
  }

  lemma SettledBacked(s: Store, sales: seq<LedgerEntry>, calendar: Calendar, through: int, m: CashMutation)
    requires Backed(s.account, s.positions, s.orders) && BookMeaning.SettlesCash(s.account, sales, calendar, through, m)
    ensures Backed(m.account, s.positions, s.orders)
    ensures forall i :: 0 <= i < |m.entries| ==> m.entries[i].key.SettlementKey?
  {
    hide Sum;
    hide BookMeaning.FoldEntries;
  }

  lemma {:induction false} ClaimsOnly(s: Store, entries: seq<LedgerEntry>)
    requires ClaimAll(s, entries).Ok?
    ensures ClaimAll(s, entries).value == s.(claims := ClaimAll(s, entries).value.claims)
  {
    if entries != [] {
      ClaimsOnly(s, entries[..|entries| - 1]);
    }
  }

  lemma SettleLiveKeeps(s: Store, calendar: Calendar, through: int, now: int)
    requires Kept(s) && SettleLive(s, calendar, through, now).Ok?
    ensures Kept(SettleLive(s, calendar, through, now).value)
  {
    var sales := Sort(Filter(s.ledger, Unsettled(s.ledger)), ByEffectiveTime());
    hide Sort;
    hide Filter;
    hide Backed;
    hide LedgerSums;
    hide Lives;
    hide SettleReceivables;
    hide RecordedAs;
    assert SoundBalances(s.account.balances) by { BackedCash(s.account, s.positions, s.orders); }
    var m := SettleReceivables(s.account, sales, calendar, through).value;
    BookMeaning.SettlementIsExact(s.account, sales, calendar, through);
    hide BookMeaning.SettlesCash;
    hide BookMeaning.SettlesKeys;
    SettledBacked(s, sales, calendar, through, m);
    SettledSums(s, sales, calendar, through, now, m);
    ClaimsOnly(s, m.entries);
    var claimed := ClaimAll(s, m.entries).value;
    var entries := RecordedAs(m.entries, now);
    InsertedEntries(claimed, entries);
    RecordedKeys(m.entries, now);
    LivesExtends(s, entries);
    var t := s.(account := m.account, ledger := s.ledger + entries);
    SameLives(s.(ledger := s.ledger + entries), t);
    RecordsKeep(t, t.recorded, claimed.claims);
  }

  lemma BackedCash(account: Account, positions: seq<Position>, orders: seq<Order>)
    requires Backed(account, positions, orders)
    ensures SoundBalances(account.balances)
  {
    hide Sum;
  }

  lemma SameLives(s: Store, t: Store)
    requires Lives(s) && t.orders == s.orders && t.ledger == s.ledger
    ensures Lives(t)
  {
    hide Lifecycle;
  }

  lemma RecordedKeys(entries: seq<LedgerEntry>, now: int)
    requires forall i :: 0 <= i < |entries| ==> entries[i].key.SettlementKey?
    ensures forall i :: 0 <= i < |RecordedAs(entries, now)| ==> OrderOf(RecordedAs(entries, now)[i].key).None?
  {
  }

  // ---------- Corporate actions ----------

  lemma CancelSplitOneKeeps(s: Store, a: CorporateAction, id: OrderId, now: int)
    requires Kept(s) && CancelSplitOne(s, a, id, now).Ok?
    ensures Kept(CancelSplitOne(s, a, id, now).value)
  {
    hide Kept;
    hide CloseWith;
    hide ApplyDelta;
    hide ReleaseShares;
    var k := Find(s.orders, id);
    if k < |s.orders| && Replay.CancelledBySplit(s.orders[k], a) {
      var o := s.orders[k];
      var r := ReleaseOrder(s.account, s.positions, o, PreOpenAction, now).value;
      var e := ReleaseEntry(s.account, o, Released(PreOpenAction), now).(effectiveAt := a.effectiveAt,
                                                                         recordedAt := now);
      assert RecordedAs(EffectiveAs(r.entries, a.effectiveAt), now) == [e];
      ReleaseKeeps(s, o, PreOpenAction, now, Cancelled, PreOpenAction, r.(entries := [e]), e);
    }
  }

  lemma {:induction false} CancelSplitKeeps(s: Store, a: CorporateAction, pending: seq<Order>, n: nat, now: int)
    requires n <= |pending| && Kept(s) && CancelSplit(s, a, pending, n, now).Ok?
    ensures Kept(CancelSplit(s, a, pending, n, now).value)
  {
    hide Kept;
    hide CancelSplitOne;
    if n > 0 {
      CancelSplitKeeps(s, a, pending, n - 1, now);
      CancelSplitOneKeeps(CancelSplit(s, a, pending, n - 1, now).value, a, pending[n - 1].id, now);
    }
  }

  lemma TakeLiveKeeps(s: Store, a: CorporateAction, now: int)
    requires Kept(s) && TakeLive(s, a, now).Ok?
    ensures Kept(TakeLive(s, a, now).value)
  {
    var holders := EligibleHolders(s.ledger, a);
    KeptIsBacked(s);
    assert SoundRows(s.positions);
    hide Kept;
    var m := ApplyCorporateAction(s.account, s.positions, a, holders).value;
    ActionRows(s.account, s.positions, a, holders);
    ActionKeepsBacking(s.account, s.positions, s.orders, a, holders);
    ActionEntryKey(s.account, s.positions, a, holders);
    hide ApplyCorporateAction;
    hide EligibleHolders;
    hide Backed;
    var e := m.entries[0].(recordedAt := now);
    assert RecordedAs(m.entries, now) == [e];
    var t := s.(account := m.account, positions := m.positions, ledger := s.ledger + [e]);
    assert Logs(s, t, e);
    hide Logs;
    EntryKeeps(s, t, e);
    InsertedEntries(ClaimEvent(s, ActionKey(a.id)).value, [e]);
    RecordsKeep(t, s.recorded[a.id := a], s.claims + {ActionKey(a.id)});
  }

  lemma ActionEntryKey(account: Account, positions: seq<Position>, a: CorporateAction, holders: seq<Position>)
    requires ApplyCorporateAction(account, positions, a, holders).Ok?
    ensures var m := ApplyCorporateAction(account, positions, a, holders).value;
      |m.entries| == 1 && m.entries[0].key == ActionKey(a.id) && m.entries[0].instrument == a.instrument
  {
    hide ApplySplit;
    hide EligibleQuantity;
    hide ApplyDelta;
  }

  lemma PayLiveKeeps(s: Store, a: CorporateAction, through: int, now: int)
    requires Kept(s) && PayLive(s, a, through, now).Ok?
    ensures Kept(PayLive(s, a, through, now).value)
  {
    hide Lives;
    hide LedgerSums;
    hide Replay.FirstWithKey;
    if !HasKey(s.ledger, PaymentKey(a.id)) {
      var accrual := Replay.FirstWithKey(s.ledger, ActionKey(a.id)).value;
      var m := PayDividend(s.account, a, accrual, through).value;
      var e := m.entries[0].(recordedAt := now);
      BalancesKeepBacking(s.account, s.positions, s.orders, e.delta);
      assert RecordedAs(m.entries, now) == [e];
      var t := s.(account := m.account, ledger := s.ledger + [e]);
      hide Backed;
      assert Logs(s, t, e);
      hide Logs;
      EntryKeeps(s, t, e);
      InsertedEntries(ClaimEvent(s, PaymentKey(a.id)).value, [e]);
      RecordsKeep(t, t.recorded, s.claims + {PaymentKey(a.id)});
    }
  }

  lemma ReconcileOneKeeps(s: Store, a: CorporateAction, relevant: set<int>, through: int, now: int)
    requires Kept(s) && ReconcileOne(s, a, relevant, through, now).Ok?
    ensures Kept(ReconcileOne(s, a, relevant, through, now).value)
  {
    hide Kept;
    hide CancelSplit;
    hide TakeLive;
    hide PayLive;
    hide ListPending;
    hide ApplyCorporateAction;
    hide InventoryChanged;
    hide PriorOpeningUnresolved;
    if InScope(s, a, relevant, through) && !(a.id in s.recorded && !SameActionEconomics(s.recorded[a.id], a)) {
      var taken := s;
      if a.id !in s.recorded {
        var pending := ListPending(s.orders);
        if a.kind == Split {
          CancelSplitKeeps(s, a, pending, |pending|, now);
        }
        var ready := if a.kind == Split then CancelSplit(s, a, pending, |pending|, now).value else s;
        if TakeLive(ready, a, now).Ok? {
          TakeLiveKeeps(ready, a, now);
        }
        taken := TakeUnlessBlocked(s, a, now).value.0;
      }
      if PayLive(taken, a, through, now).Ok? {
        PayLiveKeeps(taken, a, through, now);
      }
    }
  }

  lemma {:induction false} ReconcileEachKeeps(s: Store, actions: seq<CorporateAction>, n: nat, relevant: set<int>,
                                              through: int, now: int)
    requires n <= |actions| && Kept(s) && ReconcileEach(s, actions, n, relevant, through, now).Ok?
    ensures Kept(ReconcileEach(s, actions, n, relevant, through, now).value)
  {
    hide Kept;
    hide ReconcileOne;
    if n > 0 {
      ReconcileEachKeeps(s, actions, n - 1, relevant, through, now);
      ReconcileOneKeeps(ReconcileEach(s, actions, n - 1, relevant, through, now).value, actions[n - 1], relevant,
                        through, now);
    }
  }

  lemma ReconcileKeepsReserves(s: Store, data: Snapshot, universe: set<int>, through: int, now: int)
    requires Kept(s)
    ensures Kept(ReconcileAccount(s, data, universe, through, now).After(s))
  {
    hide Kept;
    hide SettleLive;
    hide ReconcileEach;
    hide Sort;
    hide Relevant;
    hide SaveIfChanged;
    if through <= now && SettleLive(s, data.calendar, through, now).Ok? {
      SettleLiveKeeps(s, data.calendar, through, now);
      var settled := SettleLive(s, data.calendar, through, now).value;
      var actions := Sort(data.actions, ByEffectThenId());
      if ReconcileEach(settled, actions, |actions|, Relevant(s, universe), through, now).Ok? {
        ReconcileEachKeeps(settled, actions, |actions|, Relevant(s, universe), through, now);
        SaveKeeps(s, ReconcileEach(settled, actions, |actions|, Relevant(s, universe), through, now).value);
      }
    }
  }

  // ---------- The other commands ----------

  lemma PlaceKeeps(s: Store, data: Result<Snapshot>, now: int, peak: int, r: PlaceRequest)
    requires Kept(s)
    ensures Kept(PlaceOrder(s, data, now, peak, r).After(s))
  {
    hide Kept;
    hide OrderToPlace;
    hide Reserve;
    if data.Ok? && r.quantity.Ok? {
      var o := OrderToPlace(s, data.value, now, peak, r, r.quantity.value);
      if o.Ok? {
        ReserveKeeps(s, [o.value]);
      }
    }
  }

  lemma CancelKeeps(s: Store, now: int, id: OrderId, expected: int)
    requires Kept(s)
    ensures Kept(CancelOrder(s, now, id, expected).After(s))
  {
    hide Kept;
    hide CloseWith;
    hide ApplyDelta;
    hide ReleaseShares;
    hide SaveAccount;
    var n := Find(s.orders, id);
    if n < |s.orders| {
      var o := s.orders[n];
      if SaveOrder(s, AdvanceOrder(o, now), o.version).Ok? {
        AdvanceKeepsReserves(s, o, now);
      }
      hide SaveOrder;
      var released := ReleaseOrder(s.account, s.positions, o, UserCancelled, now);
      if o.CancellableAt(now) && released.Ok?
         && CloseWith(s, o, Closed(o, Cancelled, UserCancelled), released.value).Ok? {
        ReleaseKeeps(s, o, UserCancelled, now, Cancelled, UserCancelled, released.value,
                     ReleaseEntry(s.account, o, Released(UserCancelled), now));
        SaveKeeps(s, CloseWith(s, o, Closed(o, Cancelled, UserCancelled), released.value).value);
      }
    }
  }

  lemma SetAutomationKeeps(s: Store, enabled: bool)
    requires Kept(s)
    ensures Kept(SaveAccount(SetAutomation(s, enabled)))
  {
    hide Kept;
    AccountKeeps(s, s.account.(automationEnabled := enabled, version := s.account.version + 1));
  }

  lemma ConfigureKeeps(s: Store, data: Result<Snapshot>, now: int, r: ConfigureRequest)
    requires Kept(s)
    ensures Kept(ConfigureAutomation(s, data, now, r).After(s))
  {
    hide Kept;
    hide CancelBeforeOpen;
    hide SetAutomation;
    hide SaveAccount;
    hide NextOpening;
    var changed := Reconfigures(s.account, r);
    var opening := if r.enabled || changed then NextOpening(CalendarOf(data), now) else Ok(0);
    if opening.Ok? {
      var ready := if changed then WithPending(s, r, opening.value) else s;
      AccountKeeps(s, ready.account);
      var reason := if r.enabled then ConfigurationChanged else UserPaused;
      if CancelBeforeOpen(ready, now, reason, r.enabled).Ok? {
        CancelBeforeOpenKeeps(ready, now, reason, r.enabled);
        SetAutomationKeeps(CancelBeforeOpen(ready, now, reason, r.enabled).value, r.enabled);
      }
      SetAutomationKeeps(ready, r.enabled);
    }
  }

  lemma AdoptKeeps(s: Store, now: int)
    requires Kept(s)
    ensures Kept(AdoptConfig(s, now).After(s))
  {
    hide Kept;
    match s.account.pendingConfig
    case None =>
    case Some(c) =>
      AccountKeeps(s, s.account.(strategy := c.strategy, universe := c.universe, policy := c.policy,
                                 pendingConfig := None, version := s.account.version + 1));
  }

  lemma PauseKeeps(s: Store, now: int)
    requires Kept(s)
    ensures Kept(PauseAutomation(s, now).After(s))
  {
    hide Kept;
    hide CancelBeforeOpen;
    hide SetAutomation;
    hide SaveAccount;
    if CancelBeforeOpen(s, now, DrawdownPause, false).Ok? {
      CancelBeforeOpenKeeps(s, now, DrawdownPause, false);
      SetAutomationKeeps(CancelBeforeOpen(s, now, DrawdownPause, false).value, false);
    }
  }

  lemma IssueKeeps(s: Store, data: Snapshot, run: EvaluationRun, target: Session, now: int, planned: seq<PlannedOrder>)
    requires Kept(s)
    ensures Kept(IssueBatch(s, data, run, target, now, planned).After(s))
  {
    hide Kept;
    hide SizeBatch;
    hide Reserve;
    hide NextSession;
    hide NextSettlement;
    var following := NextSession(data.calendar, target.closeAt);
    if following.Ok? {
      var batch := SizeBatch(s, data, run.date, target, following.value.closeAt, now, planned, |planned|, run.newId);
      if batch.Ok? {
        ReserveKeeps(s, batch.value.0);
      }
    }
  }

  lemma EvaluateKeeps(s: Store, data: Snapshot, now: int, run: EvaluationRun)
    requires Kept(s)
    ensures Kept(EvaluateAccount(s, data, now, run).After(s))
  {
    hide Kept;
    hide PauseAutomation;
    hide IssueBatch;
    hide BuildRebalance;
    hide ComputeNAV;
    hide ListPending;
    hide MayIssue;
    hide NextSession;
    hide SessionAmong;
    var session := SessionOn(data.calendar, run.date);
    if session.Ok? {
      var target := NextSession(data.calendar, session.value.closeAt);
      var nav := ComputeNAV(s.account, s.positions, data, map[]);
      if target.Ok? && nav.Ok? {
        var plan := BuildRebalance(LivePlanInput(s, data, run, target.value, nav.value));
        PauseKeeps(s, now);
        if plan.Ok? {
          IssueKeeps(s, data, run, target.value, now, plan.value.orders);
        }
      }
    }
  }

  lemma RunKeepsReserves(s: Store, c: Command)
    requires Kept(s)
    ensures Kept(Run(s, c).After(s))
  {
    hide Kept;
    hide PlaceOrder;
    hide CancelOrder;
    hide ConfigureAutomation;
    hide AdoptConfig;
    hide EvaluateAccount;
    hide ExecuteOrders;
    hide ReconcileAccount;
    match c
    case Place(data, now, peak, r) => PlaceKeeps(s, data, now, peak, r);
    case Cancel(now, id, expected) => CancelKeeps(s, now, id, expected);
    case Configure(data, now, r) => ConfigureKeeps(s, data, now, r);
    case Adopt(now) => AdoptKeeps(s, now);
    case Evaluate(data, now, run) => EvaluateKeeps(s, data, now, run);
    case Execute(data, now, peak, date) => ExecuteKeepsReserves(s, data, peak, now, date);
    case Reconcile(data, universe, through, now) => ReconcileKeepsReserves(s, data, universe, through, now);
  }

  lemma {:induction false} RunsKeepReserves(s: Store, commands: seq<Command>)
    requires Kept(s)
    ensures Kept(AfterAll(s, commands))
  {
    hide Kept;
    hide Run;
    if commands != [] {
      RunsKeepReserves(s, commands[..|commands| - 1]);
      RunKeepsReserves(AfterAll(s, commands[..|commands| - 1]), commands[|commands| - 1]);
    }
  }

  /** Whatever commands an account goes through, and in whatever order they commit: the reserved cash and the reserved
      shares are what the stored open orders hold; each order was reserved once; a closed one was closed by exactly one
      fill or one release and holds nothing in the ledger; an open one by none, and the ledger still reserves exactly
      its cash; and every balance is the sum of its entries. */
  lemma ReservationsCloseOnce(account: int, initialCash: int, createdAt: int, commands: seq<Command>, n: nat)
    requires 0 < initialCash <= MAX_INT64
    ensures var s := AfterAll(OpenDesk(account, initialCash, createdAt), commands);
      && s.account.balances.reserved == Sum(s.orders, CashHeld())
      && (forall id :: 0 <= Reserved(s.positions, id) == Sum(s.orders, SharesHeld(id)) <= Held(s.positions, id))
      && (forall k: Bucket :: Amount(s.account.balances, k) == Start(s.account.initialCash, k) + Sum(s.ledger, In(k)))
      && (n < |s.orders| ==>
            var o := s.orders[n];
            && Times(s.ledger, ReserveKey(o.id)) == 1
            && Times(s.ledger, FillKey(o.id)) + Times(s.ledger, ReleaseKey(o.id)) == (if o.Terminal() then 1 else 0)
            && Sum(s.ledger, ReserveOf(o.id)) == (if !o.Terminal() && o.side == Buy then o.reservedCash else 0))
  {
    OpenDeskIsKept(account, initialCash, createdAt);
    RunsKeepReserves(OpenDesk(account, initialCash, createdAt), commands);
    var s := AfterAll(OpenDesk(account, initialCash, createdAt), commands);
    hide AfterAll;
    if n < |s.orders| {
      assert Lifecycle(s.ledger, s.orders[n]);
    }
    assert SoundRows(s.positions);
    forall id
      ensures 0 <= Reserved(s.positions, id) <= Held(s.positions, id)
    {
      SumNonNegative(s.positions, ReservedSharesOf(id));
      SumMonotone(s.positions, ReservedSharesOf(id), SharesOf(id));
    }
    hide Sum;
  }
}
