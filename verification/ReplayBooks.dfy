/** The book of a replay as the engine keeps it: one object whose operations update its fields session after session. */
module ReplayBooks {
  import opened Outcomes
  import opened Money
  import opened Sizing
  import opened Domain
  import opened Calendars
  import opened Lists
  import opened Sums
  import opened Snapshots
  import Risk
  import Rebalance
  import Execution
  import Valuation
  import Holdings
  import BookEvents
  import BookMeaning
  import Causality
  import Refold
  import LedgerLoops
  import MarketLoops
  import RiskLoops
  import RebalanceLoops
  import R = Replay
  import L = Ledger

  // ---------- Execution days ----------

  /** What an execution remembers of an opening: its data, and the shares and turnover filled at it so far. */
  datatype ExecutionDay = ExecutionDay(prior: Snapshot, prices: map<int, int>, bars: map<int, Bar>, used: map<int, int>,
                                       turnover: int)

  /** A remembered opening agrees with what recomputing it from the fills would give. */
  ghost predicate Remembers(day: ExecutionDay, source: Snapshot, current: Snapshot, fills: seq<Fill>, openAt: int) {
    && day.prior == SelectSnapshot(source, openAt - 1)
    && day.bars == R.BarsOn(current.bars, DateOf(openAt))
    && day.prices == R.OpeningPrices(current.bars, DateOf(openAt))
    && (forall id :: Risk.At(day.used, id) == Sum(fills, R.SharesFilled(openAt, id)))
    && day.turnover == Sum(fills, R.GrossFilled(openAt))
  }

  ghost predicate AllRemembered(days: map<int, ExecutionDay>, source: Snapshot, current: Snapshot, fills: seq<Fill>) {
    forall t :: t in days ==> Remembers(days[t], source, current, fills, t)
  }

  method OpenDay(source: Snapshot, current: Snapshot, fills: seq<Fill>, openAt: int) returns (day: ExecutionDay)
    ensures Remembers(day, source, current, fills, openAt)
  {
    hide SelectSnapshot;
    var prior := MarketLoops.SelectSnapshot(source, openAt - 1);
    var bars: map<int, Bar>, prices: map<int, int> := map[], map[];
    for n := 0 to |current.bars|
      invariant bars == R.BarsOn(current.bars[..n], DateOf(openAt))
      invariant prices == R.OpeningPrices(current.bars[..n], DateOf(openAt))
    {
      var b := current.bars[n];
      assert current.bars[..n + 1][..n] == current.bars[..n];
      if b.sessionDate == DateOf(openAt) {
        bars := bars[b.instrument := b];
        if b.open > 0 && !b.noOpeningTrade {
          prices := prices[b.instrument := b.open];
        }
      }
    }
    assert current.bars[..|current.bars|] == current.bars;
    var used: map<int, int>, turnover := map[], 0;
    for n := 0 to |fills|
      invariant forall id :: Risk.At(used, id) == Sum(fills[..n], R.SharesFilled(openAt, id))
      invariant turnover == Sum(fills[..n], R.GrossFilled(openAt))
    {
      var f := fills[n];
      assert fills[..n + 1] == fills[..n] + [f];
      AppendFill(fills[..n], f, openAt);
      if f.effectiveAt == openAt {
        used := used[f.instrument := Risk.At(used, f.instrument) + f.quantity];
        turnover := turnover + f.gross;
      }
    }
    assert fills[..|fills|] == fills;
    day := ExecutionDay(prior, prices, bars, used, turnover);
  }

  lemma AppendFill(fills: seq<Fill>, f: Fill, openAt: int)
    ensures forall id ::
      Sum(fills + [f], R.SharesFilled(openAt, id))
        == Sum(fills, R.SharesFilled(openAt, id)) + R.SharesFilled(openAt, id)(f)
    ensures Sum(fills + [f], R.GrossFilled(openAt)) == Sum(fills, R.GrossFilled(openAt)) + R.GrossFilled(openAt)(f)
  {
    forall id
      ensures Sum(fills + [f], R.SharesFilled(openAt, id))
           == Sum(fills, R.SharesFilled(openAt, id)) + R.SharesFilled(openAt, id)(f)
    {
      SumAppend(fills, f, R.SharesFilled(openAt, id));
    }
    SumAppend(fills, f, R.GrossFilled(openAt));
  }

  function Counted(day: ExecutionDay, f: Fill): ExecutionDay {
    day.(used := day.used[f.instrument := Risk.At(day.used, f.instrument) + f.quantity],
         turnover := day.turnover + f.gross)
  }

  lemma DayAfterFill(day: ExecutionDay, source: Snapshot, current: Snapshot, fills: seq<Fill>, f: Fill, t: int)
    requires Remembers(day, source, current, fills, t)
    ensures Remembers(if t == f.effectiveAt then Counted(day, f) else day, source, current, fills + [f], t)
  {
    AppendFill(fills, f, t);
    hide SelectSnapshot;
    hide R.BarsOn;
    hide R.OpeningPrices;
    hide Sum;
  }

  /** Counting a fill in its own day keeps every remembered opening right. */
  lemma CountFill(days: map<int, ExecutionDay>, source: Snapshot, current: Snapshot, fills: seq<Fill>, f: Fill)
    requires AllRemembered(days, source, current, fills) && f.effectiveAt in days
    ensures AllRemembered(days[f.effectiveAt := Counted(days[f.effectiveAt], f)], source, current, fills + [f])
  {
    hide Remembers;
    hide Counted;
    forall t | t in days
      ensures Remembers(days[f.effectiveAt := Counted(days[f.effectiveAt], f)][t], source, current, fills + [f], t)
    {
      DayAfterFill(days[t], source, current, fills, f, t);
    }
  }

  method SmallestCapacity(orders: seq<Order>, o: Order) returns (limit: int)
    ensures limit == R.SmallestCapacity(orders, o)
  {
    limit := o.capacity;
    for n := 0 to |orders|
      invariant limit == R.SmallestCapacity(orders[..n], o)
    {
      assert orders[..n + 1][..n] == orders[..n];
      if orders[n].targetOpenAt == o.targetOpenAt && orders[n].instrument == o.instrument
         && orders[n].capacity < limit {
        limit := orders[n].capacity;
      }
    }
    assert orders[..|orders|] == orders;
  }

  // ---------- Matching ----------

  method MatchAtOpen(input: Execution.MatchInput) returns (r: Result<Execution.FillResult>)
    ensures r == Execution.MatchAtOpen(input)
  {
    hide Risk.ValidateOrder;
    var o := AdvanceOrder(input.order, input.recordedAt);
    if !Execution.Matchable(o, input.availableCapacity, input.recordedAt) {
      return Err(InvalidInput);
    }
    var price := SlippedPrice(input.openPrice, o.side);
    if price.Err? {
      return Err(price.error);
    }
    var risk := RiskLoops.ValidateOrder(Execution.MatchRequest(input, o, price.value));
    if risk.Err? {
      return Err(risk.error);
    }
    var quantity := o.quantity;
    var limits := [risk.value.maxQuantity, o.capacity, input.availableCapacity];
    for n := 0 to |limits|
      invariant n == 0 ==> quantity == o.quantity
      invariant n == 1 ==> quantity == Execution.Least(o.quantity, limits[0])
      invariant n == 2 ==> quantity == Execution.Least(Execution.Least(o.quantity, limits[0]), limits[1])
      invariant n == 3 ==>
        quantity == Execution.Least(Execution.Least(Execution.Least(o.quantity, limits[0]), limits[1]), limits[2])
    {
      if quantity > limits[n] {
        quantity := limits[n];
      }
    }
    if o.side == Sell && quantity > o.reservedQuantity {
      quantity := o.reservedQuantity;
    }
    assert quantity == Execution.MatchedQuantity(o, risk.value, input.availableCapacity);
    if quantity <= 0 {
      var reason := if risk.value.reason == NoReason then CapacityExhausted else risk.value.reason;
      return Ok(Execution.FillResult(None, o.quantity, reason));
    }
    r := Execution.FillAt(input, o, price.value, quantity);
  }

  // ---------- Refused passes ----------

  lemma {:induction false} RefusedCancels(b: R.Book, a: CorporateAction, n: nat, m: nat, now: int)
    requires n <= m <= |b.orders| && R.CancelForSplit(b, a, n, now).Err?
    ensures R.CancelForSplit(b, a, m, now) == R.CancelForSplit(b, a, n, now)
  {
    hide R.CloseUnfilled;
    if n < m {
      RefusedCancels(b, a, n, m - 1, now);
    }
  }

  lemma {:induction false} RefusedActions(b: R.Book, actions: seq<CorporateAction>, n: nat, m: nat, now: int,
                                          relevant: set<int>)
    requires n <= m <= |actions| && R.ReconcileActions(b, actions, n, now, relevant).Err?
    ensures R.ReconcileActions(b, actions, m, now, relevant) == R.ReconcileActions(b, actions, n, now, relevant)
  {
    hide R.ReconcileAction;
    if n < m {
      RefusedActions(b, actions, n, m - 1, now, relevant);
    }
  }

  lemma {:induction false} RefusedIssues(b: R.Book, s: Snapshot, target: Session, expiresAt: int,
                                         planned: seq<Rebalance.PlannedOrder>, n: nat, m: nat)
    requires n <= m <= |planned| && R.IssueOrders(b, s, target, expiresAt, planned, n).Err?
    ensures R.IssueOrders(b, s, target, expiresAt, planned, m) == R.IssueOrders(b, s, target, expiresAt, planned, n)
  {
    hide R.SizeOrder;
    hide R.Issue;
    if n < m {
      RefusedIssues(b, s, target, expiresAt, planned, n, m - 1);
    }
  }

  lemma {:induction false} RefusedExecutions(b: R.Book, source: Snapshot, current: Snapshot, n: nat, m: nat, now: int)
    requires n <= m <= |b.orders| && R.ExecuteOrders(b, source, current, n, now).Err?
    ensures R.ExecuteOrders(b, source, current, m, now) == R.ExecuteOrders(b, source, current, n, now)
  {
    hide R.ExecuteOrder;
    if n < m {
      RefusedExecutions(b, source, current, n, m - 1, now);
    }
  }

  method EligibleShares(ledger: seq<LedgerEntry>, a: CorporateAction) returns (eligible: seq<Position>)
    ensures eligible == R.Eligibility(ledger, a)
  {
    var shares := 0;
    for n := 0 to |ledger|
      invariant shares == Sum(ledger[..n], R.EligibleShares(a))
    {
      var e := ledger[n];
      assert ledger[..n + 1] == ledger[..n] + [e];
      SumAppend(ledger[..n], e, R.EligibleShares(a));
      if e.instrument == a.instrument
         && (e.effectiveAt < a.effectiveAt || (e.kind == SplitAdjustment && e.effectiveAt == a.effectiveAt))
      {
        shares := shares + e.quantityDelta;
      }
    }
    assert ledger[..|ledger|] == ledger;
    eligible := [Position(a.instrument, shares, 0, 0)];
  }

  method FindEntry(ledger: seq<LedgerEntry>, key: EventKey) returns (found: Option<LedgerEntry>)
    ensures found == R.FirstWithKey(ledger, key)
  {
    for n := 0 to |ledger|
      invariant R.FirstWithKey(ledger, key) == R.FirstWithKey(ledger[n..], key)
    {
      if ledger[n].key == key {
        return Some(ledger[n]);
      }
      assert ledger[n..][1..] == ledger[n + 1..];
    }
    found := None;
  }

  // ---------- The book ----------

  class ReplayBook {
    var account: Account
    var positions: seq<Position>
    var orders: seq<Order>
    var ledger: seq<LedgerEntry>
    var fills: seq<Fill>
    var applied: map<int, CorporateAction>
    var paid: set<int>
    var settled: set<EventKey>
    var peak: int

    function View(): R.Book
      reads this
    {
      R.Book(account, positions, orders, ledger, fills, applied, paid, settled, peak)
    }

    constructor (initialCash: int)
      ensures View() == R.NewBook(initialCash)
    {
      account := R.NewBook(initialCash).account;
      positions, orders, ledger, fills := [], [], [], [];
      applied, paid, settled, peak := map[], {}, {}, initialCash;
    }

    method Record(m: Mutation)
      modifies this
      ensures View() == R.Record(old(View()), m)
    {
      account := m.account;
      positions := m.positions;
      ledger := ledger + m.entries;
    }

    // ---------- Closing orders ----------

    method CloseUnfilled(n: nat, why: Reason, state: OrderState, now: int) returns (failure: Option<Error>)
      requires n < |orders|
      modifies this
      ensures failure.None? ==> R.CloseUnfilled(old(View()), n, why, state, now) == Ok(View())
      ensures failure.Some? ==> R.CloseUnfilled(old(View()), n, why, state, now) == Err(failure.value)
      ensures fills == old(fills)
    {
      hide L.ReleaseOrder;
      var o := orders[n];
      ghost var start := View();
      assert start.orders[n] == o;
      hide L.ReleaseEntry;
      var released := LedgerLoops.ReleaseOrder(account, positions, o, why, now);
      if released.Err? {
        return Some(released.error);
      }
      Record(released.value);
      orders := orders[n := o.(state := state)];
      assert View() == R.Record(start, released.value).(orders := start.orders[n := o.(state := state)]);
      failure := None;
    }

    method CloseFilled(n: nat, fill: Fill, partial: bool) returns (failure: Option<Error>)
      requires n < |orders|
      modifies this
      ensures R.CloseFilled(old(View()), n, fill, partial)
           == match failure case None => Ok(View()) case Some(e) => Err(e)
      ensures failure.None? ==> fills == old(fills) + [fill]
    {
      hide L.ApplyFill;
      var filled := LedgerLoops.ApplyFill(account, positions, fill);
      if filled.Err? {
        return Some(filled.error);
      }
      Record(filled.value);
      orders := orders[n := orders[n].(state := if partial then PartiallyFilled else Filled)];
      fills := fills + [fill];
      failure := None;
    }

    // ---------- Reconciliation ----------

    method Settle(calendar: Calendar, now: int) returns (failure: Option<Error>)
      modifies this
      ensures R.Settle(old(View()), calendar, now) == match failure case None => Ok(View()) case Some(e) => Err(e)
    {
      hide L.SettleReceivables;
      var pending: seq<LedgerEntry> := [];
      for n := 0 to |ledger|
        invariant View() == old(View())
        invariant pending == Filter(ledger[..n], R.AwaitingSettlement(settled))
      {
        assert ledger[..n + 1][..n] == ledger[..n];
        if ledger[n].kind == SellFill && ledger[n].key !in settled {
          pending := pending + [ledger[n]];
        }
      }
      assert ledger[..|ledger|] == ledger;
      hide Filter;
      var m := LedgerLoops.SettleReceivables(account, pending, calendar, now);
      if m.Err? {
        return Some(m.error);
      }
      account := m.value.account;
      ledger := ledger + m.value.entries;
      var entries := m.value.entries;
      ghost var before := settled;
      for n := 0 to |entries|
        invariant View() == R.RecordCash(old(View()), m.value).(settled := settled)
        invariant settled == before + R.SettledKeys(entries[..n])
      {
        assert entries[..n + 1] == entries[..n] + [entries[n]];
        if entries[n].key.SettlementKey? {
          settled := settled + {entries[n].key.settled};
        }
      }
      assert entries[..|entries|] == entries;
      failure := None;
    }

    method CancelForSplit(a: CorporateAction, now: int) returns (failure: Option<Error>)
      modifies this
      ensures R.CancelForSplit(old(View()), a, |old(orders)|, now)
           == match failure case None => Ok(View()) case Some(e) => Err(e)
    {
      hide R.CloseUnfilled;
      ghost var start := View();
      for n := 0 to |orders|
        invariant R.CancelForSplit(start, a, n, now) == Ok(View())
        invariant |orders| == |start.orders|
      {
        if R.CancelledBySplit(orders[n], a) {
          failure := CloseUnfilled(n, SplitCancel, Cancelled, now);
          if failure.Some? {
            RefusedCancels(start, a, n + 1, |start.orders|, now);
            return;
          }
        }
      }
      failure := None;
    }

    method TakeAction(a: CorporateAction, now: int) returns (failure: Option<Error>)
      modifies this
      ensures R.TakeAction(old(View()), a, now) == match failure case None => Ok(View()) case Some(e) => Err(e)
    {
      hide R.CancelForSplit;
      hide L.ApplyCorporateAction;
      hide R.Eligibility;
      if a.availableAt > a.effectiveAt {
        return Some(ActionIncomplete);
      }
      if a.kind == Split {
        failure := CancelForSplit(a, now);
        if failure.Some? {
          return;
        }
      }
      var eligible := EligibleShares(ledger, a);
      var m := LedgerLoops.ApplyCorporateAction(account, positions, a, eligible);
      if m.Err? {
        return Some(m.error);
      }
      Record(m.value);
      applied := applied[a.id := a];
      failure := None;
    }

    method PayAction(a: CorporateAction, now: int) returns (failure: Option<Error>)
      modifies this
      ensures R.PayAction(old(View()), a, now) == match failure case None => Ok(View()) case Some(e) => Err(e)
    {
      hide R.FirstWithKey;
      var accrual := FindEntry(ledger, ActionKey(a.id));
      if accrual.None? {
        return Some(ActionIncomplete);
      }
      var m := L.PayDividend(account, a, accrual.value, now);
      if m.Err? {
        return Some(m.error);
      }
      account := m.value.account;
      ledger := ledger + m.value.entries;
      paid := paid + {a.id};
      failure := None;
    }

    method ReconcileAction(a: CorporateAction, now: int, relevant: set<int>) returns (failure: Option<Error>)
      modifies this
      ensures R.ReconcileAction(old(View()), a, now, relevant)
           == match failure case None => Ok(View()) case Some(e) => Err(e)
    {
      hide R.TakeAction;
      hide R.PayAction;
      if a.instrument !in relevant || a.effectiveAt > now {
        return None;
      }
      if a.id in applied {
        if !SameActionEconomics(applied[a.id], a) {
          return Some(ActionIncomplete);
        }
      } else {
        failure := TakeAction(a, now);
        if failure.Some? {
          return;
        }
      }
      failure := None;
      if a.kind == Dividend && a.id !in paid && now >= a.payAt {
        failure := PayAction(a, now);
      }
    }

    method Reconcile(s: Snapshot, now: int, relevant: set<int>) returns (failure: Option<Error>)
      modifies this
      ensures R.Reconcile(old(View()), s, now, relevant) == match failure case None => Ok(View()) case Some(e) => Err(e)
    {
      hide R.Settle;
      hide R.ReconcileAction;
      hide Sort;
      failure := Settle(s.calendar, now);
      if failure.Some? {
        return;
      }
      ghost var start := View();
      var actions := Sort(s.actions, R.ByEffect());
      for n := 0 to |actions|
        invariant R.ReconcileActions(start, actions, n, now, relevant) == Ok(View())
      {
        failure := ReconcileAction(actions[n], now, relevant);
        if failure.Some? {
          RefusedActions(start, actions, n + 1, |actions|, now, relevant);
          return;
        }
      }
      failure := None;
    }

    // ---------- Planning ----------

    method Plan(s: Snapshot, input: R.ReplayInput, target: Session) returns (failure: Option<Error>)
      modifies this
      ensures R.PlanSession(old(View()), s, input, target)
           == match failure case None => Ok(View()) case Some(e) => Err(e)
    {
      hide Risk.ComputeNAV;
      hide Rebalance.BuildRebalance;
      hide Rebalance.Unresolved;
      hide R.EvaluationOf;
      hide R.IssueOrders;
      hide NextSession;
      if !account.automationEnabled {
        return None;
      }
      var open := RebalanceLoops.AnyOpen(orders);
      if open {
        return None;
      }
      var evaluation := R.EvaluationOf(input, s);
      if evaluation.Err? {
        return Some(evaluation.error);
      }
      var nav := RiskLoops.ComputeNAV(account, positions, s, map[]);
      if nav.Err? {
        return Some(nav.error);
      }
      var plan := RebalanceLoops.BuildRebalance(R.PlanInput(View(), s, input, evaluation.value, nav.value));
      if plan.Err? {
        return Some(plan.error);
      }
      if plan.value.pause {
        account := account.(automationEnabled := false);
        return None;
      }
      var following := MarketLoops.NextSession(s.calendar, target.closeAt);
      if following.Err? {
        return Some(following.error);
      }
      failure := IssueOrders(s, target, following.value.closeAt, plan.value.orders);
    }

    /** Issues the planned orders one by one, keeping the cash left for buys. */
    method IssueOrders(s: Snapshot, target: Session, expiresAt: int, planned: seq<Rebalance.PlannedOrder>)
      returns (failure: Option<Error>)
      modifies this
      ensures var r := R.IssueOrders(old(View()), s, target, expiresAt, planned, |planned|);
        match failure
        case None => r.Ok? && r.value.0 == View()
        case Some(e) => r == Err(e)
    {
      hide R.SizeOrder;
      hide L.ReserveOrders;
      ghost var start := View();
      var cash := account.balances.available;
      for n := 0 to |planned|
        invariant R.IssueOrders(start, s, target, expiresAt, planned, n) == Ok((View(), cash))
      {
        var sized := SizeOrder(s, target, expiresAt, planned[n], cash);
        if sized.Err? {
          RefusedIssues(start, s, target, expiresAt, planned, n + 1, |planned|);
          return Some(sized.error);
        }
        if sized.value.Some? {
          var o := sized.value.value;
          var m := LedgerLoops.ReserveOrders(account, positions, [o]);
          if m.Err? {
            RefusedIssues(start, s, target, expiresAt, planned, n + 1, |planned|);
            return Some(m.error);
          }
          cash := cash - o.reservedCash;
          Record(m.value);
          orders := orders + [o];
        }
      }
      failure := None;
    }

    method SizeOrder(s: Snapshot, target: Session, expiresAt: int, p: Rebalance.PlannedOrder, cash: int)
      returns (r: Result<Option<Order>>)
      ensures r == R.SizeOrder(s, target, expiresAt, p, cash)
    {
      hide Execution.PreviousVolumeCapacity;
      hide SizeToCash;
      hide ReservationCost;
      var bars, close := [], 0;
      for n := 0 to |s.bars|
        invariant bars == Filter(s.bars[..n], R.OfInstrument(p.instrument))
        invariant close == R.LastClose(bars)
      {
        assert s.bars[..n + 1][..n] == s.bars[..n];
        if s.bars[n].instrument == p.instrument {
          bars := bars + [s.bars[n]];
          close := s.bars[n].close;
        }
      }
      assert s.bars[..|s.bars|] == s.bars;
      var capacity := MarketLoops.PreviousVolumeCapacity(bars, target.openAt);
      if capacity.Err? {
        return Err(capacity.error);
      }
      var o := R.DraftOrder(s, target, expiresAt, p, capacity.value);
      if p.side == Sell {
        return Ok(Some(o.(reservedQuantity := o.quantity)));
      }
      var size := FindSizeToCash(close, p.quantity, cash);
      if size.Err? {
        return Err(size.error);
      }
      if size.value == 0 {
        return Ok(None);
      }
      var cost := ReservationCost(close, size.value);
      if cost.Err? {
        return Err(cost.error);
      }
      r := Ok(Some(o.(quantity := size.value, reservedCash := cost.value)));
    }

    // ---------- Execution ----------

    /** Executes one order with the remembered openings, opening a day the first time it is met. */
    method ExecuteOrder(n: nat, source: Snapshot, current: Snapshot, now: int, days: map<int, ExecutionDay>)
      returns (failure: Option<Error>, later: map<int, ExecutionDay>)
      requires n < |orders| && AllRemembered(days, source, current, fills)
      modifies this
      ensures R.ExecuteOrder(old(View()), source, current, n, now)
           == match failure case None => Ok(View()) case Some(e) => Err(e)
      ensures failure.None? ==> AllRemembered(later, source, current, fills)
    {
      hide SelectSnapshot;
      hide R.CloseUnfilled;
      hide R.CloseFilled;
      hide R.OpeningPrices;
      hide R.SmallestCapacity;
      hide Risk.ComputeNAV;
      hide Execution.MatchAtOpen;
      hide Sum;
      later := days;
      if orders[n].Terminal() || now < orders[n].targetOpenAt {
        return None, later;
      }
      orders := orders[n := AdvanceOrder(orders[n], now)];
      var o := orders[n];
      if o.targetOpenAt !in later {
        var today := OpenDay(source, current, fills, o.targetOpenAt);
        later := later[o.targetOpenAt := today];
      }
      var day := later[o.targetOpenAt];
      assert Remembers(day, source, current, fills, o.targetOpenAt);
      if o.instrument !in day.bars || day.bars[o.instrument].noOpeningTrade || day.bars[o.instrument].open <= 0
         || day.bars[o.instrument].availableAt > o.expiresAt
      {
        assert !R.HasOpening(current, o);
        hide R.HasOpening;
        if now >= o.expiresAt {
          failure := CloseUnfilled(n, DataUnavailable, Expired, now);
          return failure, later;
        }
        return None, later;
      }
      assert R.HasOpening(current, o);
      ghost var used := Sum(fills, R.SharesFilled(o.targetOpenAt, o.instrument));
      assert Risk.At(day.used, o.instrument) == used;
      hide R.HasOpening;
      var matched := MatchOpening(o, day.prior, day.prices, day.bars[o.instrument].open,
                                  Risk.At(day.used, o.instrument), day.turnover, now);
      hide R.OpeningMatch;
      if matched.Err? {
        return Some(matched.error), later;
      }
      if matched.value.fill.None? {
        failure := CloseUnfilled(n, Unmatched, Rejected, now);
        return failure, later;
      }
      var fill := matched.value.fill.value;
      assert fill.effectiveAt == o.targetOpenAt by {
        MatchedAtOpening(View(), o, day.prior, day.prices, day.bars[o.instrument].open, Risk.At(day.used, o.instrument),
                         day.turnover, now);
      }
      CountFill(later, source, current, fills, fill);
      failure := CloseFilled(n, fill, matched.value.cancelledQuantity > 0);
      later := later[fill.effectiveAt := Counted(day, fill)];
    }

    method MatchOpening(o: Order, prior: Snapshot, prices: map<int, int>, open: int, used: int, turnover: int, now: int)
      returns (r: Result<Execution.FillResult>)
      ensures r == R.OpeningMatch(View(), o, prior, prices, open, used, turnover, now)
    {
      hide Risk.ComputeNAV;
      hide Execution.MatchAtOpen;
      var nav := RiskLoops.ComputeNAV(account, positions, prior, prices);
      if nav.Err? {
        return Err(nav.error);
      }
      var limit := SmallestCapacity(orders, o);
      hide R.SmallestCapacity;
      var capacity := limit - used;
      if capacity < 0 {
        capacity := 0;
      }
      r := MatchAtOpen(Execution.MatchInput(
        o, open, capacity,
        Rebalance.PortfolioInput(account, positions, orders, prior, Risk.Evaluation(false, []), account.policy,
                                 nav.value, 0, turnover, prices, Risk.StrategyParameters([], 0.0, 0.0, 0.0, 0)),
        now));
    }

    method Execute(source: Snapshot, current: Snapshot, now: int) returns (failure: Option<Error>)
      modifies this
      ensures R.Execute(old(View()), source, current, now)
           == match failure case None => Ok(View()) case Some(e) => Err(e)
    {
      hide R.ExecuteOrder;
      hide Remembers;
      hide Sort;
      orders := Sort(orders, R.ByOpening());
      ghost var start := View();
      var days: map<int, ExecutionDay> := map[];
      for n := 0 to |orders|
        invariant R.ExecuteOrders(start, source, current, n, now) == Ok(View())
        invariant |orders| == |start.orders|
        invariant AllRemembered(days, source, current, fills)
      {
        failure, days := ExecuteOrder(n, source, current, now, days);
        if failure.Some? {
          RefusedExecutions(start, source, current, n + 1, |start.orders|, now);
          return;
        }
      }
      failure := None;
    }

    // ---------- Sessions ----------

    method RunSession(input: R.ReplayInput, previous: Session, session: Session) returns (failure: Option<Error>)
      modifies this
      ensures R.RunSession(old(View()), input, previous, session)
           == match failure case None => Ok(View()) case Some(e) => Err(e)
    {
      hide R.Reconcile;
      hide R.PlanSession;
      hide R.Execute;
      hide SelectSnapshot;
      hide Risk.ComputeNAV;
      var decision := MarketLoops.SelectSnapshot(input.source, R.DecisionTime(previous));
      failure := Reconcile(decision, R.DecisionTime(previous), input.universe);
      if failure.Some? {
        return;
      }
      failure := Plan(decision, input, session);
      if failure.Some? {
        return;
      }
      var now := R.DecisionTime(session);
      var current := MarketLoops.SelectSnapshot(input.source, now);
      failure := Reconcile(current, session.openAt, input.universe);
      if failure.Some? {
        return;
      }
      failure := Execute(input.source, current, now);
      if failure.Some? {
        return;
      }
      failure := Reconcile(current, now, input.universe);
      if failure.Some? {
        return;
      }
      var nav := RiskLoops.ComputeNAV(account, positions, current, map[]);
      if nav.Err? {
        return Some(nav.error);
      }
      if nav.value > peak {
        peak := nav.value;
      }
      failure := None;
    }

    // ---------- The restated curve ----------

    /** Folds the ledger from scratch up to a cutoff: the buckets, and a map of quantities. */
    method RefoldLedger(cutoff: int) returns (r: Result<(Balances, map<int, int>)>)
      ensures var folded := Refold.RefoldBalances(BookMeaning.StartBalances(account.initialCash), ledger, cutoff);
        match r
        case Err(e) => folded == Err(e)
        case Ok(pair) => folded == Ok(pair.0)
                         && forall id :: Risk.At(pair.1, id)
                                         == Sum(ledger, Causality.UpTo(cutoff, BookEvents.SharesIn(id)))
    {
      hide ApplyDelta;
      var balances := Balances(account.initialCash, 0, 0, 0);
      var quantities: map<int, int> := map[];
      for n := 0 to |ledger|
        invariant Refold.RefoldBalances(BookMeaning.StartBalances(account.initialCash), ledger[..n], cutoff)
          == Ok(balances)
        invariant forall id ::
          Risk.At(quantities, id) == Sum(ledger[..n], Causality.UpTo(cutoff, BookEvents.SharesIn(id)))
      {
        var e := ledger[n];
        assert ledger[..n + 1] == ledger[..n] + [e];
        assert ledger[..n + 1][..n] == ledger[..n];
        AppendShares(ledger[..n], e, cutoff);
        if e.effectiveAt <= cutoff {
          var applied := ApplyDelta(balances, e.delta);
          if applied.Err? {
            RefusedRefold(BookMeaning.StartBalances(account.initialCash), ledger, cutoff, n + 1);
            return Err(applied.error);
          }
          balances := applied.value;
          quantities := quantities[e.instrument := Risk.At(quantities, e.instrument) + e.quantityDelta];
        }
      }
      assert ledger[..|ledger|] == ledger;
      r := Ok((balances, quantities));
    }

    /** One point of the curve. The rows are listed in no particular order; the value does not depend on it. */
    method EconomicPoint(source: Snapshot, session: Session, finalAt: int) returns (r: Result<int>)
      ensures var point := Refold.EconomicPoint(View(), source, session, finalAt);
        (r.Ok? <==> point.Ok?) && (r.Ok? ==> r == point)
    {
      hide SelectSnapshot;
      hide Risk.ComputeNAV;
      hide Refold.RefoldBalances;
      hide Refold.RefoldHoldings;
      hide Refold.SessionCloses;
      hide Sum;
      hide NextSession;
      hide Holdings.Distinct;
      var cutoff := R.DecisionTime(session);
      var folded := RefoldLedger(cutoff);
      if folded.Err? {
        return Err(folded.error);
      }
      var (balances, quantities) := folded.value;
      HoldingsOfQuantities(ledger, cutoff, quantities);
      var rows := RowsOf(quantities);
      if rows.Err? {
        return Err(rows.error);
      }
      var next := MarketLoops.NextSession(source.calendar, session.closeAt);
      if next.Err? {
        return Err(next.error);
      }
      var known := MarketLoops.SelectSnapshot(source,
                                              if next.value.closeAt > finalAt then finalAt else next.value.closeAt);
      var prices := ClosesOf(known.bars, session.date);
      var priced := AllPriced(rows.value, prices);
      ghost var spec := Refold.RefoldHoldings(ledger, cutoff).value;
      SameNames(rows.value, spec, prices);
      if !priced {
        return Err(DataStale);
      }
      var a := account.(balances := balances);
      r := RiskLoops.ComputeNAV(a, rows.value, known.(asOf := cutoff), prices);
      SameNav(a, rows.value, spec, known.(asOf := cutoff), prices);
    }

    method EconomicCurve(source: Snapshot, sessions: seq<Session>, finalAt: int) returns (r: Result<seq<int>>)
      ensures var curve := Refold.EconomicCurve(View(), source, sessions, finalAt);
        (r.Ok? <==> curve.Ok?) && (r.Ok? ==> r == curve)
    {
      hide Refold.EconomicPoint;
      var points: seq<int> := [];
      for n := 0 to |sessions|
        invariant Refold.EconomicCurve(View(), source, sessions[..n], finalAt) == Ok(points)
      {
        assert sessions[..n + 1][..n] == sessions[..n];
        var nav := EconomicPoint(source, sessions[n], finalAt);
        if nav.Err? {
          RefusedCurve(View(), source, sessions, finalAt, n + 1);
          return Err(nav.error);
        }
        points := points + [nav.value];
      }
      assert sessions[..|sessions|] == sessions;
      r := Ok(points);
    }
  }

  // ---------- The replay ----------

  lemma {:induction false} RefusedRun(input: R.ReplayInput, days: seq<Session>, n: nat, m: nat)
    requires n <= m < |days| && R.RunSessions(input, days, n).Err?
    ensures R.RunSessions(input, days, m) == R.RunSessions(input, days, n)
  {
    hide R.RunSession;
    if n < m {
      RefusedRun(input, days, n, m - 1);
    }
  }

  /** Drives a book over the admitted sessions and restates its curve. */
  method Replay(input: R.ReplayInput) returns (r: Result<(R.Book, seq<int>)>)
    ensures R.Admit(input).Err? ==> r == Err(R.Admit(input).error)
    ensures R.Admit(input).Ok? ==>
      var days := R.Admit(input).value;
      && |days| > 1
      && var run := R.RunSessions(input, days, |days| - 1);
        && (run.Err? ==> r == Err(run.error))
        && (run.Ok? ==>
              var curve := Refold.EconomicCurve(run.value, input.source, days[1..], R.DecisionTime(days[|days| - 1]));
              && (r.Ok? <==> curve.Ok?)
              && (r.Ok? ==> r.value == (run.value, curve.value)))
  {
    hide R.RunSession;
    hide Refold.EconomicCurve;
    hide R.Warm;
    hide R.ReplayDays;
    var admitted := R.Admit(input);
    if admitted.Err? {
      return Err(admitted.error);
    }
    var days := admitted.value;
    var book := new ReplayBook(input.initialCash);
    var n := 0;
    while n < |days| - 1
      invariant 0 <= n < |days|
      invariant R.RunSessions(input, days, n) == Ok(book.View())
    {
      var failure := book.RunSession(input, days[n], days[n + 1]);
      n := n + 1;
      if failure.Some? {
        RefusedRun(input, days, n, |days| - 1);
        return Err(failure.value);
      }
    }
    hide R.RunSessions;
    var curve := book.EconomicCurve(input.source, days[1..], R.DecisionTime(days[|days| - 1]));
    if curve.Err? {
      return Err(curve.error);
    }
    r := Ok((book.View(), curve.value));
  }

  lemma MatchedAtOpening(b: R.Book, o: Order, prior: Snapshot, prices: map<int, int>, open: int, used: int,
                         turnover: int, now: int)
    requires var r := R.OpeningMatch(b, o, prior, prices, open, used, turnover, now); r.Ok? && r.value.fill.Some?
    ensures R.OpeningMatch(b, o, prior, prices, open, used, turnover, now).value.fill.value.effectiveAt
         == o.targetOpenAt
  {
    hide Risk.ComputeNAV;
    hide Risk.ValidateOrder;
    hide R.SmallestCapacity;
    hide SlippedPrice;
    hide GrossValue;
    hide SettlementStart;
  }

  // ---------- The refold ----------

  lemma AppendShares(ledger: seq<LedgerEntry>, e: LedgerEntry, cutoff: int)
    ensures forall id :: Sum(ledger + [e], Causality.UpTo(cutoff, BookEvents.SharesIn(id)))
                      == Sum(ledger, Causality.UpTo(cutoff, BookEvents.SharesIn(id)))
                        + Causality.UpTo(cutoff, BookEvents.SharesIn(id))(e)
  {
    forall id
      ensures Sum(ledger + [e], Causality.UpTo(cutoff, BookEvents.SharesIn(id)))
           == Sum(ledger, Causality.UpTo(cutoff, BookEvents.SharesIn(id)))
             + Causality.UpTo(cutoff, BookEvents.SharesIn(id))(e)
    {
      SumAppend(ledger, e, Causality.UpTo(cutoff, BookEvents.SharesIn(id)));
    }
  }

  lemma {:induction false} RefusedRefold(start: Balances, ledger: seq<LedgerEntry>, cutoff: int, n: nat)
    requires n <= |ledger| && Refold.RefoldBalances(start, ledger[..n], cutoff).Err?
    ensures Refold.RefoldBalances(start, ledger, cutoff) == Refold.RefoldBalances(start, ledger[..n], cutoff)
  {
    if n < |ledger| {
      assert ledger[..|ledger| - 1][..n] == ledger[..n];
      RefusedRefold(start, ledger[..|ledger| - 1], cutoff, n);
    } else {
      assert ledger[..n] == ledger;
    }
  }

  lemma {:induction false} RefusedCurve(b: R.Book, source: Snapshot, sessions: seq<Session>, finalAt: int, n: nat)
    requires n <= |sessions| && Refold.EconomicCurve(b, source, sessions[..n], finalAt).Err?
    ensures Refold.EconomicCurve(b, source, sessions, finalAt).Err?
  {
    hide Refold.EconomicPoint;
    if n < |sessions| {
      assert sessions[..|sessions| - 1][..n] == sessions[..n];
      RefusedCurve(b, source, sessions[..|sessions| - 1], finalAt, n);
    } else {
      assert sessions[..n] == sessions;
    }
  }

  predicate AnyNegative(quantities: map<int, int>) {
    exists id :: id in quantities && quantities[id] < 0
  }

  /** The map of quantities and the list of holdings say the same. */
  lemma HoldingsOfQuantities(ledger: seq<LedgerEntry>, cutoff: int, quantities: map<int, int>)
    requires forall id :: Risk.At(quantities, id) == Sum(ledger, Causality.UpTo(cutoff, BookEvents.SharesIn(id)))
    ensures Refold.RefoldHoldings(ledger, cutoff).Ok? <==> !AnyNegative(quantities)
    ensures var r := Refold.RefoldHoldings(ledger, cutoff);
      r.Ok? ==>
        && Holdings.Distinct(r.value) && (forall n :: 0 <= n < |r.value| ==> r.value[n].quantity > 0)
        && forall id :: Holdings.Held(r.value, id) == Risk.At(quantities, id)
  {
    if AnyNegative(quantities) {
      var id :| id in quantities && quantities[id] < 0;
      Refold.RefoldRowsAreSums(ledger, cutoff);
      var rows := Refold.RefoldRows(ledger, cutoff);
      assert Holdings.Held(rows, id) == Risk.At(quantities, id) < 0;
      var n := Valuation.MatchingRow(rows, id, quantities[id]);
    } else {
      forall id
        ensures Sum(ledger, Causality.UpTo(cutoff, BookEvents.SharesIn(id))) >= 0
      {
        assert Risk.At(quantities, id) >= 0;
      }
      Refold.RefoldedHoldings(ledger, cutoff);
    }
  }

  /** Rows for the positive quantities of a map, in whatever order it is walked. */
  method RowsOf(quantities: map<int, int>) returns (r: Result<seq<Position>>)
    ensures AnyNegative(quantities) ==> r == Err(InvalidInput)
    ensures !AnyNegative(quantities) ==>
      && r.Ok? && Holdings.Distinct(r.value) && (forall n :: 0 <= n < |r.value| ==> r.value[n].quantity > 0)
      && forall id :: Holdings.Held(r.value, id) == Risk.At(quantities, id)
  {
    var rows: seq<Position>, names := [], quantities.Keys;
    while names != {}
      invariant names <= quantities.Keys
      invariant forall id :: id in quantities && id !in names ==> quantities[id] >= 0
      invariant Holdings.Distinct(rows)
      invariant forall n :: 0 <= n < |rows| ==>
        rows[n].quantity > 0 && rows[n].instrument in quantities && rows[n].instrument !in names
      invariant forall id :: Holdings.Held(rows, id) == if id in names then 0 else Risk.At(quantities, id)
      decreases names
    {
      var id := AnyOf(names);
      if quantities[id] < 0 {
        assert AnyNegative(quantities);
        return Err(InvalidInput);
      }
      names := names - {id};
      if quantities[id] > 0 {
        AddedRow(rows, Position(id, quantities[id], 0, 0));
        rows := rows + [Position(id, quantities[id], 0, 0)];
      }
    }
    r := Ok(rows);
  }

  lemma AddedRow(rows: seq<Position>, p: Position)
    ensures forall id :: Holdings.Held(rows + [p], id) == Holdings.Held(rows, id) + Holdings.SharesOf(id)(p)
  {
    forall id
      ensures Holdings.Held(rows + [p], id) == Holdings.Held(rows, id) + Holdings.SharesOf(id)(p)
    {
      SumAppend(rows, p, Holdings.SharesOf(id));
    }
  }

  method ClosesOf(bars: seq<Bar>, date: int) returns (prices: map<int, int>)
    ensures prices == Refold.SessionCloses(bars, date)
  {
    prices := map[];
    for n := 0 to |bars|
      invariant prices == Refold.SessionCloses(bars[..n], date)
    {
      assert bars[..n + 1][..n] == bars[..n];
      if bars[n].sessionDate == date && bars[n].close > 0 {
        prices := prices[bars[n].instrument := bars[n].close];
      }
    }
    assert bars[..|bars|] == bars;
  }

  predicate Unpriced(rows: seq<Position>, prices: map<int, int>) {
    exists n :: 0 <= n < |rows| && rows[n].instrument !in prices
  }

  method AllPriced(rows: seq<Position>, prices: map<int, int>) returns (priced: bool)
    ensures priced == !Unpriced(rows, prices)
  {
    for n := 0 to |rows|
      invariant forall k :: 0 <= k < n ==> rows[k].instrument in prices
    {
      if rows[n].instrument !in prices {
        return false;
      }
    }
    priced := true;
  }

  lemma SameNames(xs: seq<Position>, ys: seq<Position>, prices: map<int, int>)
    requires Holdings.Distinct(xs) && Holdings.Distinct(ys)
    requires forall id :: Holdings.Held(xs, id) == Holdings.Held(ys, id)
    requires forall n :: 0 <= n < |xs| ==> xs[n].quantity > 0
    requires forall n :: 0 <= n < |ys| ==> ys[n].quantity > 0
    ensures Unpriced(xs, prices) <==> Unpriced(ys, prices)
  {
    if Unpriced(xs, prices) {
      NamedElsewhere(xs, ys, prices);
    }
    if Unpriced(ys, prices) {
      NamedElsewhere(ys, xs, prices);
    }
  }

  lemma NamedElsewhere(xs: seq<Position>, ys: seq<Position>, prices: map<int, int>)
    requires Holdings.Distinct(xs) && Holdings.Distinct(ys)
    requires forall id :: Holdings.Held(xs, id) == Holdings.Held(ys, id)
    requires Unpriced(xs, prices) && forall n :: 0 <= n < |xs| ==> xs[n].quantity > 0
    ensures Unpriced(ys, prices)
  {
    var n :| 0 <= n < |xs| && xs[n].instrument !in prices;
    Holdings.RowTotals(xs, n);
    var m := Valuation.MatchingRow(ys, xs[n].instrument, xs[n].quantity);
    assert ys[m].instrument !in prices;
  }

  lemma SameNav(a: Account, xs: seq<Position>, ys: seq<Position>, s: Snapshot, prices: map<int, int>)
    requires Holdings.Distinct(xs) && Holdings.Distinct(ys)
    requires forall id :: Holdings.Held(xs, id) == Holdings.Held(ys, id)
    ensures var x, y := Risk.ComputeNAV(a, xs, s, prices), Risk.ComputeNAV(a, ys, s, prices);
      (x.Ok? <==> y.Ok?) && (x.Ok? ==> x == y)
  {
    if Risk.ComputeNAV(a, xs, s, prices).Ok? {
      Valuation.NavDependsOnHoldings(a, xs, ys, s, prices);
    }
    if Risk.ComputeNAV(a, ys, s, prices).Ok? {
      Valuation.NavDependsOnHoldings(a, ys, xs, s, prices);
    }
    hide Risk.ComputeNAV;
  }
}
