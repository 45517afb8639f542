// The live desk as its handlers run it: one object holding what is stored, changed step by step inside a transaction,
// and put back as it was when the transaction fails.
module LiveDesks {
  import opened Outcomes
  import opened Money
  import opened Sizing
  import opened Domain
  import opened Calendars
  import opened Lists
  import opened Sums
  import opened Snapshots
  import Risk
  import Rebalance
  import Execution
  import Replay
  import LedgerLoops
  import MarketLoops
  import RiskLoops
  import RebalanceLoops
  import ReplayBooks
  import G = Ledger
  import H = LiveHistory
  import P = LivePromises
  import V = Live

  datatype Reply = Accepted | Declines(why: Error) | Fails(how: Error)

  function ReplyOf(o: V.Outcome): Reply {
    match o
    case Committed(_) => Accepted
    case Declined(_, e) => Declines(e)
    case RolledBack(e) => Fails(e)
  }

  // ---------- Refused passes ----------

  lemma {:induction false} RefusedInserts(s: V.Store, batch: seq<Order>, n: nat)
    requires n <= |batch| && V.InsertOrders(s, batch[..n]).Err?
    ensures V.InsertOrders(s, batch) == V.InsertOrders(s, batch[..n])
  {
    if n < |batch| {
      assert batch[..|batch| - 1][..n] == batch[..n];
      RefusedInserts(s, batch[..|batch| - 1], n);
    } else {
      assert batch[..n] == batch;
    }
  }

  lemma {:induction false} RefusedEntries(s: V.Store, entries: seq<LedgerEntry>, n: nat)
    requires n <= |entries| && V.InsertLedger(s, entries[..n]).Err?
    ensures V.InsertLedger(s, entries) == V.InsertLedger(s, entries[..n])
  {
    if n < |entries| {
      assert entries[..|entries| - 1][..n] == entries[..n];
      RefusedEntries(s, entries[..|entries| - 1], n);
    } else {
      assert entries[..n] == entries;
    }
  }

  lemma {:induction false} RefusedClaims(s: V.Store, entries: seq<LedgerEntry>, n: nat)
    requires n <= |entries| && V.ClaimAll(s, entries[..n]).Err?
    ensures V.ClaimAll(s, entries) == V.ClaimAll(s, entries[..n])
  {
    if n < |entries| {
      assert entries[..|entries| - 1][..n] == entries[..n];
      RefusedClaims(s, entries[..|entries| - 1], n);
    } else {
      assert entries[..n] == entries;
    }
  }

  lemma {:induction false} RefusedCancels(s: V.Store, pending: seq<Order>, n: nat, m: nat, now: int, reason: Reason,
                                          buysOnly: bool)
    requires n <= m <= |pending| && V.CancelEach(s, pending, n, now, reason, buysOnly).Err?
    ensures V.CancelEach(s, pending, m, now, reason, buysOnly) == V.CancelEach(s, pending, n, now, reason, buysOnly)
  {
    hide V.CancelOne;
    if n < m {
      RefusedCancels(s, pending, n, m - 1, now, reason, buysOnly);
    }
  }

  lemma {:induction false} RefusedSizes(s: V.Store, data: Snapshot, date: int, target: Session, expiresAt: int,
                                        now: int, planned: seq<Rebalance.PlannedOrder>, n: nat, m: nat,
                                        newId: nat -> OrderId)
    requires n <= m <= |planned| && V.SizeBatch(s, data, date, target, expiresAt, now, planned, n, newId).Err?
    ensures V.SizeBatch(s, data, date, target, expiresAt, now, planned, m, newId)
         == V.SizeBatch(s, data, date, target, expiresAt, now, planned, n, newId)
  {
    hide V.SizeLive;
    if n < m {
      RefusedSizes(s, data, date, target, expiresAt, now, planned, n, m - 1, newId);
    }
  }

  lemma {:induction false} RefusedExecutions(s: V.Store, data: Snapshot, pending: seq<Order>, n: nat, m: nat, peak: int,
                                             now: int, date: Option<int>)
    requires n <= m <= |pending| && V.ExecuteEach(s, data, pending, n, peak, now, date).Err?
    ensures V.ExecuteEach(s, data, pending, m, peak, now, date) == V.ExecuteEach(s, data, pending, n, peak, now, date)
  {
    hide V.ExecuteOne;
    if n < m {
      RefusedExecutions(s, data, pending, n, m - 1, peak, now, date);
    }
  }

  lemma {:induction false} RefusedSplits(s: V.Store, a: CorporateAction, pending: seq<Order>, n: nat, m: nat, now: int)
    requires n <= m <= |pending| && V.CancelSplit(s, a, pending, n, now).Err?
    ensures V.CancelSplit(s, a, pending, m, now) == V.CancelSplit(s, a, pending, n, now)
  {
    hide V.CancelSplitOne;
    if n < m {
      RefusedSplits(s, a, pending, n, m - 1, now);
    }
  }

  lemma {:induction false} RefusedReconciles(s: V.Store, actions: seq<CorporateAction>, n: nat, m: nat,
                                             relevant: set<int>, through: int, now: int)
    requires n <= m <= |actions| && V.ReconcileEach(s, actions, n, relevant, through, now).Err?
    ensures V.ReconcileEach(s, actions, m, relevant, through, now)
         == V.ReconcileEach(s, actions, n, relevant, through, now)
  {
    hide V.ReconcileOne;
    if n < m {
      RefusedReconciles(s, actions, n, m - 1, relevant, through, now);
    }
  }

  // ---------- Reads ----------

  /** The bars of an instrument, and its close on a date. */
  method BarsAndClose(bars: seq<Bar>, id: int, date: int) returns (own: seq<Bar>, close: int)
    ensures own == Filter(bars, Replay.OfInstrument(id)) && close == V.CloseOn(own, date)
  {
    own, close := [], 0;
    for n := 0 to |bars|
      invariant own == Filter(bars[..n], Replay.OfInstrument(id)) && close == V.CloseOn(own, date)
    {
      assert bars[..n + 1][..n] == bars[..n];
      if bars[n].instrument == id {
        own := own + [bars[n]];
        if bars[n].sessionDate == date {
          close := bars[n].close;
        }
      }
    }
    assert bars[..|bars|] == bars;
  }

  method OpeningsFor(bars: seq<Bar>, o: Order) returns (found: map<int, int>)
    ensures found == V.OpeningsFor(bars, o)
  {
    found := map[];
    for n := 0 to |bars|
      invariant found == V.OpeningsFor(bars[..n], o)
    {
      var b := bars[n];
      assert bars[..n + 1][..n] == bars[..n];
      if b.sessionDate == DateOf(o.targetOpenAt) && b.availableAt <= o.expiresAt && b.open > 0 && !b.noOpeningTrade {
        found := found[b.instrument := b.open];
      }
    }
    assert bars[..|bars|] == bars;
  }

  // ---------- The desk ----------

  class LiveDesk {
    var account: Account
    var positions: seq<Position>
    var orders: seq<Order>
    var ledger: seq<LedgerEntry>
    var fills: seq<Fill>
    var recorded: map<int, CorporateAction>
    var claims: set<EventKey>

    function View(): V.Store
      reads this
    {
      V.Store(account, positions, orders, ledger, fills, recorded, claims)
    }

    /** The reserves are what the open orders hold, each order is reserved once and closed once, every bucket is the sum
        of its entries, and unsettled cash and dividends are the claims still open. */
    ghost predicate Valid()
      reads this
    {
      P.SoundDesk(View())
    }

    constructor (id: int, initialCash: int, createdAt: int)
      ensures View() == V.OpenDesk(id, initialCash, createdAt)
      ensures 0 < initialCash <= MAX_INT64 ==> Valid()
    {
      if 0 < initialCash <= MAX_INT64 {
        P.OpenDeskIsSound(id, initialCash, createdAt);
      }
      hide P.SoundDesk;
      account := V.OpenDesk(id, initialCash, createdAt).account;
      positions, orders, ledger, fills, recorded, claims := [], [], [], [], map[], {};
    }

    /** A failed transaction leaves no trace. */
    method Restore(s: V.Store)
      modifies this
      ensures View() == s
    {
      account, positions, orders, ledger := s.account, s.positions, s.orders, s.ledger;
      fills, recorded, claims := s.fills, s.recorded, s.claims;
    }

    // ---------- Stores ----------

    method SaveAccount()
      modifies this
      ensures View() == V.SaveAccount(old(View()))
    {
      account := account.(version := account.version + 1);
    }

    method InsertOrders(batch: seq<Order>) returns (failure: Option<Error>)
      modifies this
      ensures V.InsertOrders(old(View()), batch) == match failure case None => Ok(View()) case Some(e) => Err(e)
    {
      ghost var start := View();
      for n := 0 to |batch|
        invariant V.InsertOrders(start, batch[..n]) == Ok(View())
      {
        assert batch[..n + 1][..n] == batch[..n];
        if V.Find(orders, batch[n].id) < |orders| {
          RefusedInserts(start, batch, n + 1);
          return Some(StoreFailure);
        }
        orders := orders + [batch[n]];
      }
      assert batch[..|batch|] == batch;
      failure := None;
    }

    method SaveOrder(o: Order, expected: int) returns (failure: Option<Error>)
      modifies this
      ensures V.SaveOrder(old(View()), o, expected) == match failure case None => Ok(View()) case Some(e) => Err(e)
      ensures failure.Some? ==> View() == old(View())
    {
      var n := V.Find(orders, o.id);
      if n == |orders| {
        return Some(NotFound);
      }
      if orders[n].version != expected || orders[n].Terminal() {
        return Some(VersionConflict);
      }
      orders := orders[n := orders[n].(state := o.state, reason := o.reason, reservedCash := o.reservedCash,
                                       reservedQuantity := o.reservedQuantity, version := expected + 1)];
      failure := None;
    }

    method InsertLedger(entries: seq<LedgerEntry>) returns (failure: Option<Error>)
      modifies this
      ensures V.InsertLedger(old(View()), entries) == match failure case None => Ok(View()) case Some(e) => Err(e)
      ensures recorded == old(recorded)
    {
      ghost var start := View();
      for n := 0 to |entries|
        invariant V.InsertLedger(start, entries[..n]) == Ok(View()) && recorded == start.recorded
      {
        assert entries[..n + 1][..n] == entries[..n];
        if V.HasKey(ledger, entries[n].key) {
          RefusedEntries(start, entries, n + 1);
          return Some(StoreFailure);
        }
        ledger := ledger + [entries[n]];
      }
      assert entries[..|entries|] == entries;
      failure := None;
    }

    method ClaimAll(entries: seq<LedgerEntry>) returns (failure: Option<Error>)
      modifies this
      ensures V.ClaimAll(old(View()), entries) == match failure case None => Ok(View()) case Some(e) => Err(e)
    {
      ghost var start := View();
      for n := 0 to |entries|
        invariant V.ClaimAll(start, entries[..n]) == Ok(View())
      {
        assert entries[..n + 1][..n] == entries[..n];
        if entries[n].key in claims {
          RefusedClaims(start, entries, n + 1);
          return Some(VersionConflict);
        }
        claims := claims + {entries[n].key};
      }
      assert entries[..|entries|] == entries;
      failure := None;
    }

    method CloseWith(o: Order, closed: Order, m: Mutation) returns (failure: Option<Error>)
      modifies this
      ensures V.CloseWith(old(View()), o, closed, m) == match failure case None => Ok(View()) case Some(e) => Err(e)
    {
      hide V.SaveOrder;
      hide V.InsertLedger;
      failure := SaveOrder(closed, o.version);
      if failure.Some? {
        return;
      }
      failure := InsertLedger(m.entries);
      if failure.Some? {
        return;
      }
      account, positions := m.account, m.positions;
    }

    // ---------- Reservations ----------

    method Reserve(batch: seq<Order>) returns (reply: Reply)
      modifies this
      ensures var o := V.Reserve(old(View()), batch);
        reply == ReplyOf(o) && (!o.RolledBack? ==> View() == o.After(old(View())))
    {
      hide G.ReserveOrders;
      hide V.InsertOrders;
      hide V.InsertLedger;
      if batch == [] {
        return Accepted;
      }
      var m := LedgerLoops.ReserveOrders(account, positions, batch);
      if m.Err? {
        return Declines(m.error);
      }
      var failure := InsertOrders(batch);
      if failure.Some? {
        return Fails(failure.value);
      }
      failure := InsertLedger(m.value.entries);
      if failure.Some? {
        return Fails(failure.value);
      }
      account, positions := m.value.account, m.value.positions;
      SaveAccount();
      reply := Accepted;
    }

    method CancelOne(o: Order, now: int, reason: Reason, buysOnly: bool) returns (failure: Option<Error>)
      modifies this
      ensures V.CancelOne(old(View()), o, now, reason, buysOnly)
           == match failure case None => Ok(View()) case Some(e) => Err(e)
    {
      hide G.ReleaseOrder;
      hide V.SaveOrder;
      hide V.CloseWith;
      var advanced := AdvanceOrder(o, now);
      if advanced.state != o.state {
        failure := SaveOrder(advanced, o.version);
        return;
      }
      if !o.CancellableAt(now) || (buysOnly && o.side != Buy) {
        return None;
      }
      var m := LedgerLoops.ReleaseOrder(account, positions, o, reason, now);
      if m.Err? {
        return Some(m.error);
      }
      failure := CloseWith(o, V.Closed(o, Cancelled, reason), m.value);
    }

    method CancelBeforeOpen(now: int, reason: Reason, buysOnly: bool) returns (failure: Option<Error>)
      modifies this
      ensures V.CancelBeforeOpen(old(View()), now, reason, buysOnly)
           == match failure case None => Ok(View()) case Some(e) => Err(e)
    {
      hide V.CancelOne;
      hide V.ListPending;
      ghost var start := View();
      var pending := V.ListPending(orders);
      for n := 0 to |pending|
        invariant V.CancelEach(start, pending, n, now, reason, buysOnly) == Ok(View())
      {
        failure := CancelOne(pending[n], now, reason, buysOnly);
        if failure.Some? {
          RefusedCancels(start, pending, n + 1, |pending|, now, reason, buysOnly);
          return;
        }
      }
      failure := None;
    }

    // ---------- Commands ----------

    method OrderToPlace(data: Snapshot, now: int, peak: int, r: V.PlaceRequest, quantity: int)
      returns (decision: Result<Order>)
      ensures decision == V.OrderToPlace(View(), data, now, peak, r, quantity)
    {
      hide Risk.ComputeNAV;
      hide Risk.ValidateOrder;
      hide Execution.PreviousVolumeCapacity;
      hide LatestCompleted;
      hide NextSession;
      hide NextSettlement;
      hide V.ListPending;
      hide Filter;
      hide V.CloseOn;
      hide ReservationCost;
      var latest := MarketLoops.LatestCompleted(data.calendar, now);
      if latest.Err? {
        return Err(latest.error);
      }
      var target := MarketLoops.NextSession(data.calendar, now);
      if target.Err? {
        return Err(target.error);
      }
      var following := MarketLoops.NextSession(data.calendar, target.value.closeAt);
      if following.Err? {
        return Err(following.error);
      }
      if !V.SettlementKnown(data.calendar, target.value.openAt) {
        return Err(DataNotConfigured);
      }
      var bars, close := BarsAndClose(data.bars, r.instrument, latest.value.date);
      if close <= 0 {
        return Err(DataStale);
      }
      var capacity := MarketLoops.PreviousVolumeCapacity(bars, target.value.openAt);
      if capacity.Err? {
        return Err(capacity.error);
      }
      if capacity.value <= 0 {
        return Err(RiskLimit);
      }
      var nav := RiskLoops.ComputeNAV(account, positions, data, map[]);
      if nav.Err? {
        return Err(nav.error);
      }
      var price := SlippedPrice(close, r.side);
      if price.Err? {
        return Err(price.error);
      }
      var risk := RiskLoops.ValidateOrder(Risk.RiskInput(
        account, positions, V.ListPending(orders), data, Risk.Evaluation(false, []), r.instrument, r.side, NoReason,
        None, quantity, price.value, nav.value, peak, account.policy, Sum(fills, V.GrossOn(target.value.date)), false,
        None, map[], Risk.StrategyParameters([], 0.0, 0.0, 0.0, 0), target.value.openAt));
      if risk.Err? {
        return Err(risk.error);
      }
      if !risk.value.allowed {
        return Err(if risk.value.reason == NoSettledCash then InsufficientCash else RiskLimit);
      }
      var o := Order(r.id, account.id, r.instrument, r.side, Pending, NoReason, quantity, 0, capacity.value, 0,
                     target.value.openAt, following.value.closeAt, now, 1);
      if r.side == Sell {
        return Ok(o.(reservedQuantity := quantity));
      }
      var cost := ReservationCost(close, quantity);
      if cost.Err? {
        return Err(cost.error);
      }
      decision := Ok(o.(reservedCash := cost.value));
    }

    method PlaceOrder(data: Result<Snapshot>, now: int, peak: int, r: V.PlaceRequest) returns (reply: Reply)
      modifies this
      ensures var o := V.PlaceOrder(old(View()), data, now, peak, r);
        reply == ReplyOf(o) && View() == o.After(old(View()))
    {
      hide V.OrderToPlace;
      hide V.Reserve;
      var start := View();
      if r.quantity.Err? || r.expectedVersion < 1 {
        return Fails(InvalidInput);
      }
      if account.version != r.expectedVersion {
        return Declines(VersionConflict);
      }
      if data.Err? {
        return Declines(data.error);
      }
      var decision := OrderToPlace(data.value, now, peak, r, r.quantity.value);
      if decision.Err? {
        return Declines(decision.error);
      }
      reply := Reserve([decision.value]);
      if reply.Fails? {
        Restore(start);
      }
    }

    method CancelOrder(now: int, id: OrderId, expectedVersion: int) returns (reply: Reply)
      modifies this
      ensures var o := V.CancelOrder(old(View()), now, id, expectedVersion);
        reply == ReplyOf(o) && View() == o.After(old(View()))
    {
      hide G.ReleaseOrder;
      hide V.SaveOrder;
      hide V.CloseWith;
      var start := View();
      if expectedVersion < 1 {
        return Fails(InvalidInput);
      }
      var n := V.Find(orders, id);
      if n == |orders| {
        return Declines(NotFound);
      }
      var o := orders[n];
      var advanced := AdvanceOrder(o, now);
      if advanced.state != o.state {
        var failure := SaveOrder(advanced, o.version);
        if failure.Some? {
          return Fails(failure.value);
        }
        return Declines(NotCancellable);
      }
      if !o.CancellableAt(now) {
        return Declines(NotCancellable);
      }
      if o.version != expectedVersion {
        return Declines(VersionConflict);
      }
      var m := LedgerLoops.ReleaseOrder(account, positions, o, UserCancelled, now);
      if m.Err? {
        return Declines(m.error);
      }
      var failure := CloseWith(o, V.Closed(o, Cancelled, UserCancelled), m.value);
      if failure.Some? {
        Restore(start);
        return Fails(failure.value);
      }
      SaveAccount();
      reply := Accepted;
    }

    method ConfigureAutomation(data: Result<Snapshot>, now: int, r: V.ConfigureRequest) returns (reply: Reply)
      modifies this
      ensures var o := V.ConfigureAutomation(old(View()), data, now, r);
        reply == ReplyOf(o) && View() == o.After(old(View()))
    {
      hide V.CancelBeforeOpen;
      hide V.NextOpening;
      var start := View();
      if r.expectedVersion < 1 || !r.policy.Valid() {
        return Fails(InvalidInput);
      }
      if account.version != r.expectedVersion {
        return Declines(VersionConflict);
      }
      if r.enabled && data.Err? {
        return Declines(data.error);
      }
      var changed := V.Reconfigures(account, r);
      var openAt := 0;
      if r.enabled || changed {
        var opening := V.NextOpening(V.CalendarOf(data), now);
        if opening.Err? {
          return Declines(opening.error);
        }
        openAt := opening.value;
      }
      if changed {
        account := account.(pendingConfig := Some(AccountConfig(r.strategy, r.universe, r.policy, openAt)));
      }
      if !r.enabled || changed {
        var failure := CancelBeforeOpen(now, if r.enabled then ConfigurationChanged else UserPaused, r.enabled);
        if failure.Some? {
          Restore(start);
          return Fails(failure.value);
        }
      }
      account := account.(automationEnabled := r.enabled);
      SaveAccount();
      reply := Accepted;
    }

    method AdoptConfig(now: int) returns (reply: Reply)
      modifies this
      ensures var o := V.AdoptConfig(old(View()), now);
        reply == ReplyOf(o) && View() == o.After(old(View()))
    {
      if account.pendingConfig.Some? && now >= account.pendingConfig.value.effectiveAt {
        var c := account.pendingConfig.value;
        account := account.(strategy := c.strategy, universe := c.universe, policy := c.policy, pendingConfig := None);
        SaveAccount();
      }
      reply := Accepted;
    }

    // ---------- Evaluation ----------

    method SizeBatch(data: Snapshot, run: V.EvaluationRun, target: Session, expiresAt: int, now: int,
                     planned: seq<Rebalance.PlannedOrder>)
      returns (r: Result<seq<Order>>)
      ensures var sized := V.SizeBatch(View(), data, run.date, target, expiresAt, now, planned, |planned|, run.newId);
        r == if sized.Err? then Err(sized.error) else Ok(sized.value.0)
    {
      hide V.SizeLive;
      var batch, cash := [], account.balances.available;
      for n := 0 to |planned|
        invariant V.SizeBatch(View(), data, run.date, target, expiresAt, now, planned, n, run.newId)
          == Ok((batch, cash))
      {
        var sized := SizeLive(data, run.date, target, expiresAt, now, planned[n], cash, run.newId(n));
        if sized.Err? {
          RefusedSizes(View(), data, run.date, target, expiresAt, now, planned, n + 1, |planned|, run.newId);
          return Err(sized.error);
        }
        if sized.value.Some? {
          batch := batch + [sized.value.value];
          cash := cash - sized.value.value.reservedCash;
        }
      }
      r := Ok(batch);
    }

    method SizeLive(data: Snapshot, date: int, target: Session, expiresAt: int, now: int, p: Rebalance.PlannedOrder,
                    cash: int, id: OrderId)
      returns (r: Result<Option<Order>>)
      ensures r == V.SizeLive(View(), data, date, target, expiresAt, now, p, cash, id)
    {
      hide Execution.PreviousVolumeCapacity;
      hide SizeToCash;
      hide ReservationCost;
      hide Filter;
      hide V.CloseOn;
      var bars, close := BarsAndClose(data.bars, p.instrument, date);
      if close <= 0 {
        return Err(DataStale);
      }
      var capacity := MarketLoops.PreviousVolumeCapacity(bars, target.openAt);
      if capacity.Err? {
        return Err(capacity.error);
      }
      var o := V.LiveDraft(View(), target, expiresAt, now, p, capacity.value, id);
      if p.side == Sell {
        return Ok(Some(o.(reservedQuantity := o.quantity)));
      }
      var size := FindSizeToCash(close, p.quantity, cash);
      if size.Err? {
        return Err(size.error);
      }
      if size.value == 0 {
        return Ok(None);
      }
      var cost := ReservationCost(close, size.value);
      if cost.Err? {
        return Err(cost.error);
      }
      r := Ok(Some(o.(quantity := size.value, reservedCash := cost.value)));
    }

    method IssueBatch(data: Snapshot, run: V.EvaluationRun, target: Session, now: int,
                      planned: seq<Rebalance.PlannedOrder>)
      returns (reply: Reply)
      modifies this
      ensures var o := V.IssueBatch(old(View()), data, run, target, now, planned);
        reply == ReplyOf(o) && (!o.RolledBack? ==> View() == o.After(old(View())))
    {
      hide V.SizeBatch;
      hide V.Reserve;
      hide NextSession;
      hide NextSettlement;
      var following := MarketLoops.NextSession(data.calendar, target.closeAt);
      if following.Err? {
        return Fails(following.error);
      }
      if !V.SettlementKnown(data.calendar, target.openAt) {
        return Accepted;
      }
      var batch := SizeBatch(data, run, target, following.value.closeAt, now, planned);
      if batch.Err? {
        return Fails(batch.error);
      }
      reply := Reserve(batch.value);
      if reply.Declines? {
        reply := Fails(reply.why);
      }
    }

    method Pause(now: int) returns (reply: Reply)
      modifies this
      ensures var o := V.PauseAutomation(old(View()), now);
        reply == ReplyOf(o) && (!o.RolledBack? ==> View() == o.After(old(View())))
    {
      hide V.CancelBeforeOpen;
      var failure := CancelBeforeOpen(now, DrawdownPause, false);
      if failure.Some? {
        return Fails(failure.value);
      }
      account := account.(automationEnabled := false);
      SaveAccount();
      reply := Accepted;
    }

    method Issue(data: Snapshot, now: int, run: V.EvaluationRun, target: Session) returns (reply: Reply)
      modifies this
      ensures var o := V.IssueOrders(old(View()), data, now, run, target);
        reply == ReplyOf(o) && (!o.RolledBack? ==> View() == o.After(old(View())))
    {
      hide V.MayIssue;
      hide V.PauseAutomation;
      hide V.IssueBatch;
      hide Risk.ComputeNAV;
      hide Rebalance.BuildRebalance;
      hide V.ListPending;
      if !V.MayIssue(View(), run, target, now) {
        return Accepted;
      }
      var nav := RiskLoops.ComputeNAV(account, positions, data, map[]);
      if nav.Err? {
        return Accepted;
      }
      var plan := RebalanceLoops.BuildRebalance(V.LivePlanInput(View(), data, run, target, nav.value));
      if plan.Err? {
        return Fails(plan.error);
      }
      if plan.value.pause {
        reply := Pause(now);
      } else if plan.value.orders == [] {
        reply := Accepted;
      } else {
        reply := IssueBatch(data, run, target, now, plan.value.orders);
      }
    }

    method EvaluateAccount(data: Snapshot, now: int, run: V.EvaluationRun) returns (reply: Reply)
      modifies this
      ensures var o := V.EvaluateAccount(old(View()), data, now, run);
        reply == ReplyOf(o) && View() == o.After(old(View()))
    {
      hide V.SessionAmong;
      hide NextSession;
      hide V.IssueOrders;
      var start := View();
      var session := V.SessionOn(data.calendar, run.date);
      if session.Err? {
        return Fails(session.error);
      }
      var target := MarketLoops.NextSession(data.calendar, session.value.closeAt);
      if target.Err? {
        return Fails(target.error);
      }
      reply := Issue(data, now, run, target.value);
      if reply.Fails? {
        Restore(start);
      }
    }

    // ---------- Execution ----------

    method Match(data: Snapshot, o: Order, peak: int, now: int) returns (r: Result<Execution.FillResult>)
      ensures r == V.LiveMatch(View(), data, o, peak, now)
    {
      hide SelectSnapshot;
      hide Risk.ComputeNAV;
      hide Execution.MatchAtOpen;
      hide V.OpeningsFor;
      hide V.CapacityLimit;
      hide V.ListPending;
      var date := DateOf(o.targetOpenAt);
      var openings := OpeningsFor(data.bars, o);
      var prior := MarketLoops.SelectSnapshot(data, o.targetOpenAt - 1);
      var nav := RiskLoops.ComputeNAV(account, positions, prior, openings);
      if nav.Err? {
        return Err(nav.error);
      }
      var used := Sum(fills, V.FilledOn(date, o.instrument));
      var limit := V.CapacityLimit(orders, date, o.instrument);
      if limit.None? {
        return Err(NotFound);
      }
      var remaining := limit.value - used;
      if remaining < 0 {
        remaining := 0;
      }
      r := ReplayBooks.MatchAtOpen(Execution.MatchInput(
        o, Risk.At(openings, o.instrument), remaining,
        Rebalance.PortfolioInput(account, positions, V.ListPending(orders), prior, Risk.Evaluation(false, []),
                                 account.policy, nav.value, peak, Sum(fills, V.GrossOn(date)), openings,
                                 Risk.StrategyParameters([], 0.0, 0.0, 0.0, 0)),
        now));
    }

    method Release(original: Order, state: OrderState, reason: Reason, at: int, now: int)
      returns (failure: Option<Error>)
      modifies this
      ensures V.ReleaseLive(old(View()), original, state, reason, at, now)
           == match failure case None => Ok(View()) case Some(e) => Err(e)
    {
      hide G.ReleaseOrder;
      hide V.CloseWith;
      var m := LedgerLoops.ReleaseOrder(account, positions, original, reason, now);
      if m.Err? {
        return Some(m.error);
      }
      failure := CloseWith(original, V.Closed(original, state, reason),
                           m.value.(entries := V.EffectiveAs(m.value.entries, at)));
    }

    method TakeFill(original: Order, fill: Fill, state: OrderState, reason: Reason) returns (failure: Option<Error>)
      modifies this
      ensures V.FillLive(old(View()), original, fill, state, reason)
           == match failure case None => Ok(View()) case Some(e) => Err(e)
    {
      hide G.ApplyFill;
      hide V.CloseWith;
      var m := LedgerLoops.ApplyFill(account, positions, fill);
      if m.Err? {
        return Some(m.error);
      }
      failure := CloseWith(original, V.Closed(original, state, reason), m.value);
      if failure.None? {
        fills := fills + [fill];
      }
    }

    method ExecuteOne(data: Snapshot, original: Order, peak: int, now: int) returns (failure: Option<Error>)
      modifies this
      ensures V.ExecuteOne(old(View()), data, original, peak, now)
           == match failure case None => Ok(View()) case Some(e) => Err(e)
    {
      hide V.Tradable;
      hide V.ExecutionBlocked;
      hide V.LiveMatch;
      hide V.FillLive;
      hide V.ReleaseLive;
      hide V.SaveOrder;
      var o := AdvanceOrder(original, now);
      if V.Tradable(View(), data, o) {
        var matched := Match(data, o, peak, now);
        if matched.Err? {
          return Some(matched.error);
        }
        if matched.value.fill.Some? {
          var state := Filled;
          if matched.value.cancelledQuantity > 0 {
            state := PartiallyFilled;
          }
          failure := TakeFill(original, matched.value.fill.value, state, matched.value.reason);
        } else {
          failure := Release(original, Rejected, matched.value.reason, o.targetOpenAt, now);
        }
      } else if now < o.expiresAt {
        failure := None;
        if original.state != o.state {
          failure := SaveOrder(o, original.version);
        }
      } else {
        var reason := DataUnavailable;
        if V.ExecutionBlocked(View(), data, o) {
          reason := ActionUnresolved;
        }
        failure := Release(original, Expired, reason, o.expiresAt, now);
      }
    }

    method ExecuteOrders(data: Snapshot, peak: int, now: int, date: Option<int>) returns (reply: Reply)
      modifies this
      ensures var o := V.ExecuteOrders(old(View()), data, peak, now, date);
        reply == ReplyOf(o) && View() == o.After(old(View()))
    {
      hide V.ExecuteOne;
      hide V.ListPending;
      hide Sort;
      var start := View();
      var pending := Sort(V.ListPending(orders), V.BySideThenName());
      for n := 0 to |pending|
        invariant V.ExecuteEach(start, data, pending, n, peak, now, date) == Ok(View())
      {
        if V.DueOn(pending[n], now, date) {
          var failure := ExecuteOne(data, pending[n], peak, now);
          if failure.Some? {
            RefusedExecutions(start, data, pending, n + 1, |pending|, peak, now, date);
            Restore(start);
            return Fails(failure.value);
          }
        }
      }
      if |ledger| != |start.ledger| {
        SaveAccount();
      }
      reply := Accepted;
    }

    // ---------- Reconciliation ----------

    method Settle(calendar: Calendar, through: int, now: int) returns (failure: Option<Error>)
      modifies this
      ensures V.SettleLive(old(View()), calendar, through, now)
           == match failure case None => Ok(View()) case Some(e) => Err(e)
    {
      hide G.SettleReceivables;
      hide V.ClaimAll;
      hide V.InsertLedger;
      hide Sort;
      hide Filter;
      var sales := Sort(Filter(ledger, V.Unsettled(ledger)), V.ByEffectiveTime());
      var m := LedgerLoops.SettleReceivables(account, sales, calendar, through);
      if m.Err? {
        return Some(m.error);
      }
      failure := ClaimAll(m.value.entries);
      if failure.Some? {
        return;
      }
      failure := InsertLedger(V.RecordedAs(m.value.entries, now));
      if failure.Some? {
        return;
      }
      account := m.value.account;
    }

    method CancelSplitOne(a: CorporateAction, id: OrderId, now: int) returns (failure: Option<Error>)
      modifies this
      ensures V.CancelSplitOne(old(View()), a, id, now) == match failure case None => Ok(View()) case Some(e) => Err(e)
    {
      hide G.ReleaseOrder;
      hide V.CloseWith;
      var k := V.Find(orders, id);
      if k == |orders| || !Replay.CancelledBySplit(orders[k], a) {
        return None;
      }
      var o := orders[k];
      var m := LedgerLoops.ReleaseOrder(account, positions, o, PreOpenAction, now);
      if m.Err? {
        return Some(m.error);
      }
      failure := CloseWith(o, V.Closed(o, Cancelled, PreOpenAction),
                           m.value.(entries := V.RecordedAs(V.EffectiveAs(m.value.entries, a.effectiveAt), now)));
    }

    method CancelSplit(a: CorporateAction, now: int) returns (failure: Option<Error>)
      modifies this
      ensures var pending := V.ListPending(old(orders));
        V.CancelSplit(old(View()), a, pending, |pending|, now)
          == match failure case None => Ok(View()) case Some(e) => Err(e)
    {
      hide V.CancelSplitOne;
      hide V.ListPending;
      ghost var start := View();
      var pending := V.ListPending(orders);
      for n := 0 to |pending|
        invariant V.CancelSplit(start, a, pending, n, now) == Ok(View())
      {
        failure := CancelSplitOne(a, pending[n].id, now);
        if failure.Some? {
          RefusedSplits(start, a, pending, n + 1, |pending|, now);
          return;
        }
      }
      failure := None;
    }

    method Take(a: CorporateAction, now: int) returns (failure: Option<Error>)
      modifies this
      ensures V.TakeLive(old(View()), a, now) == match failure case None => Ok(View()) case Some(e) => Err(e)
    {
      hide G.ApplyCorporateAction;
      hide V.InsertLedger;
      hide V.EligibleHolders;
      if ActionKey(a.id) in claims {
        return Some(VersionConflict);
      }
      claims := claims + {ActionKey(a.id)};
      var m := LedgerLoops.ApplyCorporateAction(account, positions, a, V.EligibleHolders(ledger, a));
      if m.Err? {
        return Some(m.error);
      }
      failure := InsertLedger(V.RecordedAs(m.value.entries, now));
      if failure.Some? {
        return;
      }
      account, positions, recorded := m.value.account, m.value.positions, recorded[a.id := a];
    }

    method Pay(a: CorporateAction, through: int, now: int) returns (failure: Option<Error>)
      modifies this
      ensures V.PayLive(old(View()), a, through, now) == match failure case None => Ok(View()) case Some(e) => Err(e)
    {
      hide V.InsertLedger;
      hide Replay.FirstWithKey;
      if V.HasKey(ledger, PaymentKey(a.id)) {
        return None;
      }
      hide V.HasKey;
      var accrual := ReplayBooks.FindEntry(ledger, ActionKey(a.id));
      if accrual.None? {
        return Some(NotFound);
      }
      var m := G.PayDividend(account, a, accrual.value, through);
      if m.Err? {
        return Some(m.error);
      }
      if PaymentKey(a.id) in claims {
        return Some(VersionConflict);
      }
      claims := claims + {PaymentKey(a.id)};
      failure := InsertLedger(V.RecordedAs(m.value.entries, now));
      if failure.Some? {
        return;
      }
      account := m.value.account;
    }

    method TakeUnlessBlocked(a: CorporateAction, now: int) returns (failure: Option<Error>, blocked: bool)
      modifies this
      ensures V.TakeUnlessBlocked(old(View()), a, now)
           == match failure case None => Ok((View(), blocked)) case Some(e) => Err(e)
    {
      hide V.CancelSplit;
      hide V.TakeLive;
      hide V.ListPending;
      hide G.ApplyCorporateAction;
      hide V.InventoryChanged;
      hide V.PriorOpeningUnresolved;
      blocked := false;
      if a.kind == Split {
        failure := CancelSplit(a, now);
        if failure.Some? {
          return;
        }
        if V.InventoryChanged(View(), a.instrument, a.effectiveAt) {
          return None, true;
        }
      }
      if V.PriorOpeningUnresolved(View(), a) {
        return None, true;
      }
      var trial := LedgerLoops.ApplyCorporateAction(account, positions, a, []);
      if trial.Err? {
        return None, true;
      }
      failure := Take(a, now);
    }

    method ReconcileOne(a: CorporateAction, relevant: set<int>, through: int, now: int) returns (failure: Option<Error>)
      modifies this
      ensures V.ReconcileOne(old(View()), a, relevant, through, now)
           == match failure case None => Ok(View()) case Some(e) => Err(e)
    {
      hide V.TakeUnlessBlocked;
      hide V.PayLive;
      if !V.InScope(View(), a, relevant, through) {
        return None;
      }
      if a.id in recorded {
        if !SameActionEconomics(recorded[a.id], a) {
          return None;
        }
      } else {
        var blocked;
        failure, blocked := TakeUnlessBlocked(a, now);
        if failure.Some? || blocked {
          return;
        }
      }
      failure := None;
      if a.kind == Dividend && through >= a.payAt {
        failure := Pay(a, through, now);
      }
    }

    method ReconcileAccount(data: Snapshot, universe: set<int>, through: int, now: int) returns (reply: Reply)
      modifies this
      ensures var o := V.ReconcileAccount(old(View()), data, universe, through, now);
        reply == ReplyOf(o) && View() == o.After(old(View()))
    {
      hide V.SettleLive;
      hide V.ReconcileOne;
      hide V.Relevant;
      hide Sort;
      if through > now {
        return Fails(InvalidInput);
      }
      var start := View();
      var relevant := V.Relevant(start, universe);
      var failure := Settle(data.calendar, through, now);
      if failure.Some? {
        Restore(start);
        return Fails(failure.value);
      }
      ghost var settled := View();
      var actions := Sort(data.actions, V.ByEffectThenId());
      for n := 0 to |actions|
        invariant V.ReconcileEach(settled, actions, n, relevant, through, now) == Ok(View())
      {
        failure := ReconcileOne(actions[n], relevant, through, now);
        if failure.Some? {
          RefusedReconciles(settled, actions, n + 1, |actions|, relevant, through, now);
          Restore(start);
          return Fails(failure.value);
        }
      }
      if |ledger| != |start.ledger| {
        SaveAccount();
      }
      reply := Accepted;
    }

    // ---------- The commands ----------

    /** An accepted request is stored as asked, with its reserve taken; otherwise nothing changes. */
    method Place(data: Result<Snapshot>, now: int, peak: int, r: V.PlaceRequest) returns (reply: Reply)
      requires Valid()
      modifies this
      ensures Valid() && H.Extends(old(View()), View())
      ensures P.OpenedSurvive(old(View()), View(), now)
      ensures if reply.Accepted? then P.Placed(old(View()), View(), r, now) else View() == old(View())
      ensures var o := V.PlaceOrder(old(View()), data, now, peak, r);
        reply == ReplyOf(o) && View() == o.After(old(View()))
    {
      hide P.SoundDesk;
      hide H.Extends;
      hide P.OpenedSurvive;
      hide P.Placed;
      hide V.PlaceOrder;
      ghost var command := V.Command.Place(data, now, peak, r);
      assert V.Run(View(), command) == V.PlaceOrder(View(), data, now, peak, r);
      hide V.Run;
      P.RunKeepsSound(View(), command);
      P.RunSpares(View(), command);
      P.PlaceLeaves(View(), data, now, peak, r);
      reply := PlaceOrder(data, now, peak, r);
    }

    /** An accepted cancellation gives back what the order held; a refused one at most lets the order wait for its
        bar. */
    method Cancel(now: int, id: OrderId, expectedVersion: int) returns (reply: Reply)
      requires Valid()
      modifies this
      ensures Valid() && H.Extends(old(View()), View())
      ensures P.OpenedSurvive(old(View()), View(), now)
      ensures reply.Accepted? ==> P.GivenBack(old(View()), View(), id, now)
      ensures reply.Declines? ==> View() == old(View()).(orders := orders)
      ensures reply.Fails? ==> View() == old(View())
      ensures var o := V.CancelOrder(old(View()), now, id, expectedVersion);
        reply == ReplyOf(o) && View() == o.After(old(View()))
    {
      hide P.SoundDesk;
      hide H.Extends;
      hide P.OpenedSurvive;
      hide P.GivenBack;
      hide V.CancelOrder;
      ghost var command := V.Command.Cancel(now, id, expectedVersion);
      assert V.Run(View(), command) == V.CancelOrder(View(), now, id, expectedVersion);
      hide V.Run;
      P.RunKeepsSound(View(), command);
      P.RunSpares(View(), command);
      P.CancelLeaves(View(), now, id, expectedVersion);
      reply := CancelOrder(now, id, expectedVersion);
    }

    /** Switching automation off leaves no order that could still be cancelled; changing it leaves no such buy. */
    method Configure(data: Result<Snapshot>, now: int, r: V.ConfigureRequest) returns (reply: Reply)
      requires Valid()
      modifies this
      ensures Valid() && H.Extends(old(View()), View())
      ensures P.OpenedSurvive(old(View()), View(), now)
      ensures !reply.Accepted? ==> View() == old(View())
      ensures reply.Accepted? ==> account.automationEnabled == r.enabled && fills == old(fills)
      ensures reply.Accepted? && (!r.enabled || V.Reconfigures(old(account), r)) ==> P.AllQuiet(orders, now, r.enabled)
      ensures var o := V.ConfigureAutomation(old(View()), data, now, r);
        reply == ReplyOf(o) && View() == o.After(old(View()))
    {
      hide P.SoundDesk;
      hide H.Extends;
      hide P.OpenedSurvive;
      hide P.AllQuiet;
      hide V.ConfigureAutomation;
      ghost var command := V.Command.Configure(data, now, r);
      assert V.Run(View(), command) == V.ConfigureAutomation(View(), data, now, r);
      hide V.Run;
      P.RunKeepsSound(View(), command);
      P.RunSpares(View(), command);
      P.ConfigureLeaves(View(), data, now, r);
      reply := ConfigureAutomation(data, now, r);
    }

    /** A pending configuration whose opening has come takes effect, and touches nothing else. */
    method Adopt(now: int) returns (reply: Reply)
      requires Valid()
      modifies this
      ensures Valid() && H.Extends(old(View()), View())
      ensures View() == old(View()).(account := account) && account.balances == old(account.balances)
      ensures account.pendingConfig.Some? ==> now < account.pendingConfig.value.effectiveAt
      ensures var o := V.AdoptConfig(old(View()), now);
        reply == ReplyOf(o) && View() == o.After(old(View()))
    {
      hide P.SoundDesk;
      hide H.Extends;
      hide V.AdoptConfig;
      ghost var command := V.Command.Adopt(now);
      assert V.Run(View(), command) == V.AdoptConfig(View(), now);
      hide V.Run;
      P.RunKeepsSound(View(), command);
      P.AdoptLeaves(View(), now);
      reply := AdoptConfig(now);
    }

    /** An evaluation issues its orders or pauses; it never undoes an opening, and when it fails it leaves no trace. */
    method Evaluate(data: Snapshot, now: int, run: V.EvaluationRun) returns (reply: Reply)
      requires Valid()
      modifies this
      ensures Valid() && H.Extends(old(View()), View())
      ensures P.OpenedSurvive(old(View()), View(), now)
      ensures !reply.Declines? && (reply.Fails? ==> View() == old(View()))
      ensures var o := V.EvaluateAccount(old(View()), data, now, run);
        reply == ReplyOf(o) && View() == o.After(old(View()))
    {
      hide P.SoundDesk;
      hide H.Extends;
      hide P.OpenedSurvive;
      hide V.EvaluateAccount;
      ghost var command := V.Command.Evaluate(data, now, run);
      assert V.Run(View(), command) == V.EvaluateAccount(View(), data, now, run);
      hide V.Run;
      P.RunKeepsSound(View(), command);
      P.RunSpares(View(), command);
      P.EvaluateDecides(View(), data, now, run);
      reply := EvaluateAccount(data, now, run);
    }

    /** An execution leaves no due order open past its deadline, or fails without a trace. */
    method Execute(data: Snapshot, peak: int, now: int, date: Option<int>) returns (reply: Reply)
      requires Valid()
      modifies this
      ensures Valid() && H.Extends(old(View()), View())
      ensures reply.Accepted? ==> |orders| == |old(orders)| && P.NoneOverdue(orders, now, date)
      ensures !reply.Declines? && (reply.Fails? ==> View() == old(View()))
      ensures var o := V.ExecuteOrders(old(View()), data, peak, now, date);
        reply == ReplyOf(o) && View() == o.After(old(View()))
    {
      hide P.SoundDesk;
      hide H.Extends;
      hide P.NoneOverdue;
      hide V.ExecuteOrders;
      ghost var command := V.Command.Execute(data, now, peak, date);
      assert V.Run(View(), command) == V.ExecuteOrders(View(), data, peak, now, date);
      hide V.Run;
      P.RunKeepsSound(View(), command);
      P.ExecuteLeaves(View(), data, peak, now, date);
      reply := ExecuteOrders(data, peak, now, date);
    }

    /** A reconciliation settles every sale whose settlement has begun, or fails without a trace. */
    method Reconcile(data: Snapshot, universe: set<int>, through: int, now: int) returns (reply: Reply)
      requires Valid()
      modifies this
      ensures Valid() && H.Extends(old(View()), View())
      ensures reply.Accepted? ==> P.DueSettled(old(ledger), ledger, data.calendar, through)
      ensures !reply.Declines? && (reply.Fails? ==> View() == old(View()))
      ensures var o := V.ReconcileAccount(old(View()), data, universe, through, now);
        reply == ReplyOf(o) && View() == o.After(old(View()))
    {
      hide P.SoundDesk;
      hide H.Extends;
      hide P.DueSettled;
      hide V.ReconcileAccount;
      ghost var command := V.Command.Reconcile(data, universe, through, now);
      assert V.Run(View(), command) == V.ReconcileAccount(View(), data, universe, through, now);
      hide V.Run;
      P.RunKeepsSound(View(), command);
      P.ReconcileLeaves(View(), data, universe, through, now);
      reply := ReconcileAccount(data, universe, through, now);
    }

    /** Runs one command: what is stored afterwards is what the command says, whether it commits, declines or fails. */
    method Run(c: V.Command) returns (reply: Reply)
      requires Valid()
      modifies this
      ensures Valid() && H.Extends(old(View()), View())
      ensures reply.Fails? ==> View() == old(View())
      ensures var o := V.Run(old(View()), c);
        reply == ReplyOf(o) && View() == o.After(old(View()))
    {
      hide V.PlaceOrder;
      hide V.CancelOrder;
      hide V.ConfigureAutomation;
      hide V.AdoptConfig;
      hide V.EvaluateAccount;
      hide V.ExecuteOrders;
      hide V.ReconcileAccount;
      match c {
        case Place(data, now, peak, r) => reply := Place(data, now, peak, r);
        case Cancel(now, id, expected) => reply := Cancel(now, id, expected);
        case Configure(data, now, r) => reply := Configure(data, now, r);
        case Adopt(now) => reply := Adopt(now);
        case Evaluate(data, now, run) => reply := Evaluate(data, now, run);
        case Execute(data, now, peak, date) => reply := Execute(data, peak, now, date);
        case Reconcile(data, universe, through, now) => reply := Reconcile(data, universe, through, now);
      }
    }
  }
}
