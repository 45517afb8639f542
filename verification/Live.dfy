// The live desk of one account: the stored account, positions, orders, fills and ledger, and the commands that change
// them. Each command is one transaction under the lock of the account: it commits, commits a business refusal, or rolls
// back.
module Live {
  import opened Outcomes
  import opened Money
  import opened Sizing
  import opened Domain
  import opened Calendars
  import opened Lists
  import opened Sums
  import opened Ledger
  import opened Snapshots
  import opened Risk
  import opened Rebalance
  import opened Execution
  import opened Replay

  datatype Store = Store(
    account: Account, positions: seq<Position>, orders: seq<Order>, ledger: seq<LedgerEntry>, fills: seq<Fill>,
    recorded: map<int, CorporateAction>, claims: set<EventKey>)

  datatype Outcome =
    | Committed(store: Store)
    | Declined(store: Store, error: Error)
    | RolledBack(error: Error)
  {
    /** What is stored afterwards. */
    function After(before: Store): Store {
      match this
      case Committed(s) => s
      case Declined(s, _) => s
      case RolledBack(_) => before
    }
  }

  function OpenDesk(account: int, initialCash: int, createdAt: int): Store {
    Store(Account(account, 0, 0, Balances(initialCash, 0, 0, 0), initialCash, 1, false, DEFAULT_POLICY, None,
                  createdAt),
          [], [], [], [], map[], {})
  }

  // ---------- The stores ----------

  function Serial(id: OrderId): int {
    match id
    case ReplayId(day, _, _) => day
    case FreshId(n) => n
  }

  function Find(orders: seq<Order>, id: OrderId): (n: nat)
    ensures n <= |orders|
    ensures n < |orders| ==> orders[n].id == id
    ensures forall k :: 0 <= k < n ==> orders[k].id != id
  {
    if orders == [] then 0
    else if orders[0].id == id then 0
    else 1 + Find(orders[1..], id)
  }

  function IsOpen(): Order -> bool {
    (o: Order) => !o.Terminal()
  }

  function ByInstrumentThenId(): (Order, Order) -> bool {
    (a: Order, b: Order) => a.instrument < b.instrument || (a.instrument == b.instrument && Serial(a.id) < Serial(b.id))
  }

  function ListPending(orders: seq<Order>): seq<Order> {
    Sort(Filter(orders, IsOpen()), ByInstrumentThenId())
  }

  function InsertOrders(s: Store, batch: seq<Order>): Result<Store> {
    if batch == [] then Ok(s)
    else
      var o := batch[|batch| - 1];
      var t :- InsertOrders(s, batch[..|batch| - 1]);
      if Find(t.orders, o.id) < |t.orders| then Err(StoreFailure) else Ok(t.(orders := t.orders + [o]))
  }

  /** Updates an open order of the expected version; nothing but its state, reason and reserves can change. */
  function SaveOrder(s: Store, o: Order, expected: int): Result<Store> {
    var n := Find(s.orders, o.id);
    if n == |s.orders| then Err(NotFound)
    else if s.orders[n].version != expected || s.orders[n].Terminal() then Err(VersionConflict)
    else Ok(s.(orders :=
               s.orders[n := s.orders[n].(state := o.state, reason := o.reason, reservedCash := o.reservedCash,
                                                    reservedQuantity := o.reservedQuantity, version := expected + 1)]))
  }

  predicate HasKey(ledger: seq<LedgerEntry>, k: EventKey) {
    exists i :: 0 <= i < |ledger| && ledger[i].key == k
  }

  /** Each event is recorded at most once. */
  function InsertLedger(s: Store, entries: seq<LedgerEntry>): Result<Store> {
    if entries == [] then Ok(s)
    else
      var e := entries[|entries| - 1];
      var t :- InsertLedger(s, entries[..|entries| - 1]);
      if HasKey(t.ledger, e.key) then Err(StoreFailure) else Ok(t.(ledger := t.ledger + [e]))
  }

  function ClaimEvent(s: Store, k: EventKey): Result<Store> {
    if k in s.claims then Err(VersionConflict) else Ok(s.(claims := s.claims + {k}))
  }

  function Closed(o: Order, state: OrderState, reason: Reason): Order {
    o.(state := state, reason := reason, reservedCash := 0, reservedQuantity := 0)
  }

  /** Saves what a release or a fill did to an order: the order closed, the positions, the entries and the balances. */
  function CloseWith(s: Store, o: Order, closed: Order, m: Mutation): Result<Store> {
    var saved :- SaveOrder(s, closed, o.version);
    var logged :- InsertLedger(saved, m.entries);
    Ok(logged.(account := m.account, positions := m.positions))
  }

  function SaveAccount(s: Store): Store {
    s.(account := s.account.(version := s.account.version + 1))
  }

  // ---------- Reservations ----------

  /** A refusal by the ledger happens before anything is written; a store failure may come after. */
  function Reserve(s: Store, batch: seq<Order>): Outcome {
    if batch == [] then Committed(s)
    else
      match ReserveOrders(s.account, s.positions, batch)
      case Err(e) => Declined(s, e)
      case Ok(m) =>
        match InsertOrders(s, batch)
        case Err(e) => RolledBack(e)
        case Ok(t) =>
          match InsertLedger(t, m.entries)
          case Err(e) => RolledBack(e)
          case Ok(u) => Committed(SaveAccount(u.(account := m.account, positions := m.positions)))
  }

  /** Advances an order whose opening has come, or cancels it before its opening. */
  function CancelOne(s: Store, o: Order, now: int, reason: Reason, buysOnly: bool): Result<Store> {
    var advanced := AdvanceOrder(o, now);
    if advanced.state != o.state then SaveOrder(s, advanced, o.version)
    else if !o.CancellableAt(now) || (buysOnly && o.side != Buy) then Ok(s)
    else
      var m :- ReleaseOrder(s.account, s.positions, o, reason, now);
      CloseWith(s, o, Closed(o, Cancelled, reason), m)
  }

  function CancelEach(s: Store, pending: seq<Order>, n: nat, now: int, reason: Reason, buysOnly: bool): Result<Store>
    requires n <= |pending|
  {
    if n == 0 then Ok(s)
    else
      var before :- CancelEach(s, pending, n - 1, now, reason, buysOnly);
      CancelOne(before, pending[n - 1], now, reason, buysOnly)
  }

  function CancelBeforeOpen(s: Store, now: int, reason: Reason, buysOnly: bool): Result<Store> {
    var pending := ListPending(s.orders);
    CancelEach(s, pending, |pending|, now, reason, buysOnly)
  }

  // ---------- Placing an order ----------

  datatype PlaceRequest = PlaceRequest(instrument: int, side: Side, quantity: Result<int>, expectedVersion: int,
                                       id: OrderId)

  function CloseOn(bars: seq<Bar>, date: int): int {
    if bars == [] then 0
    else if bars[|bars| - 1].sessionDate == date then bars[|bars| - 1].close
    else CloseOn(bars[..|bars| - 1], date)
  }

  function GrossOn(date: int): Fill -> int {
    (f: Fill) => if DateOf(f.effectiveAt) == date then f.gross else 0
  }

  function SettlementKnown(calendar: Calendar, after: int): bool {
    NextSettlement(calendar, after).Ok?
  }

  /** The order a request becomes, or the reason it is refused; `peak` is the highest value recorded so far. */
  function OrderToPlace(s: Store, data: Snapshot, now: int, peak: int, r: PlaceRequest, quantity: int): Result<Order> {
    var latest :- LatestCompleted(data.calendar, now);
    var target :- NextSession(data.calendar, now);
    var following :- NextSession(data.calendar, target.closeAt);
    if !SettlementKnown(data.calendar, target.openAt) then Err(DataNotConfigured)
    else
      var bars := Filter(data.bars, OfInstrument(r.instrument));
      var close := CloseOn(bars, latest.date);
      if close <= 0 then Err(DataStale)
      else
        var capacity :- PreviousVolumeCapacity(bars, target.openAt);
        if capacity <= 0 then Err(RiskLimit)
        else
          var nav :- ComputeNAV(s.account, s.positions, data, map[]);
          var price :- SlippedPrice(close, r.side);
          var risk :- ValidateOrder(RiskInput(
            s.account, s.positions, ListPending(s.orders), data, Evaluation(false, []), r.instrument, r.side, NoReason,
            None, quantity, price, nav, peak, s.account.policy, Sum(s.fills, GrossOn(target.date)), false, None, map[],
            StrategyParameters([], 0.0, 0.0, 0.0, 0), target.openAt));
          if !risk.allowed then Err(if risk.reason == NoSettledCash then InsufficientCash else RiskLimit)
          else
            var o := Order(r.id, s.account.id, r.instrument, r.side, Pending, NoReason, quantity, 0, capacity, 0,
                           target.openAt, following.closeAt, now, 1);
            match r.side
            case Sell => Ok(o.(reservedQuantity := quantity))
            case Buy =>
              var cost :- ReservationCost(close, quantity);
              Ok(o.(reservedCash := cost))
  }

  function PlaceOrder(s: Store, data: Result<Snapshot>, now: int, peak: int, r: PlaceRequest): Outcome {
    if r.quantity.Err? || r.expectedVersion < 1 then RolledBack(InvalidInput)
    else if s.account.version != r.expectedVersion then Declined(s, VersionConflict)
    else
      match data
      case Err(e) => Declined(s, e)
      case Ok(d) =>
        match OrderToPlace(s, d, now, peak, r, r.quantity.value)
        case Err(e) => Declined(s, e)
        case Ok(o) => Reserve(s, [o])
  }

  // ---------- Cancelling an order ----------

  /** A cancellation that comes after the opening is refused, and the order's advance is committed with the refusal. */
  function CancelOrder(s: Store, now: int, id: OrderId, expectedVersion: int): Outcome {
    var n := Find(s.orders, id);
    if expectedVersion < 1 then RolledBack(InvalidInput)
    else if n == |s.orders| then Declined(s, NotFound)
    else
      var o := s.orders[n];
      var advanced := AdvanceOrder(o, now);
      if advanced.state != o.state then
        match SaveOrder(s, advanced, o.version)
        case Err(e) => RolledBack(e)
        case Ok(t) => Declined(t, NotCancellable)
      else if !o.CancellableAt(now) then Declined(s, NotCancellable)
      else if o.version != expectedVersion then Declined(s, VersionConflict)
      else
        match ReleaseOrder(s.account, s.positions, o, UserCancelled, now)
        case Err(e) => Declined(s, e)
        case Ok(m) =>
          match CloseWith(s, o, Closed(o, Cancelled, UserCancelled), m)
          case Err(e) => RolledBack(e)
          case Ok(t) => Committed(SaveAccount(t))
  }

  // ---------- Configuring automation ----------

  datatype ConfigureRequest = ConfigureRequest(enabled: bool, strategy: int, universe: int, policy: RiskPolicy,
                                               expectedVersion: int)

  const EMPTY_CALENDAR := Calendar(0, 0, [], [])

  function CalendarOf(data: Result<Snapshot>): Calendar {
    match data
    case Ok(d) => d.calendar
    case Err(_) => EMPTY_CALENDAR
  }

  function NextOpening(calendar: Calendar, now: int): Result<int> {
    var next :- NextSession(calendar, now);
    if SettlementKnown(calendar, next.openAt) then Ok(next.openAt) else Err(DataNotConfigured)
  }

  predicate Reconfigures(a: Account, r: ConfigureRequest) {
    r.universe != a.universe || r.strategy != a.strategy || r.policy != a.policy
  }

  function SetAutomation(s: Store, enabled: bool): Store {
    s.(account := s.account.(automationEnabled := enabled))
  }

  function WithPending(s: Store, r: ConfigureRequest, effectiveAt: int): Store {
    s.(account := s.account.(pendingConfig := Some(AccountConfig(r.strategy, r.universe, r.policy, effectiveAt))))
  }

  function ConfigureAutomation(s: Store, data: Result<Snapshot>, now: int, r: ConfigureRequest): Outcome {
    if r.expectedVersion < 1 || !r.policy.Valid() then RolledBack(InvalidInput)
    else if s.account.version != r.expectedVersion then Declined(s, VersionConflict)
    else if r.enabled && data.Err? then Declined(s, data.error)
    else
      var changed := Reconfigures(s.account, r);
      var opening := if r.enabled || changed then NextOpening(CalendarOf(data), now) else Ok(0);
      match opening
      case Err(e) => Declined(s, e)
      case Ok(openAt) =>
        var ready := if changed then WithPending(s, r, openAt) else s;
        var released := if !r.enabled || changed
                        then CancelBeforeOpen(ready, now, if r.enabled then ConfigurationChanged else UserPaused,
                                              r.enabled)
                        else Ok(ready);
        match released
        case Err(e) => RolledBack(e)
        case Ok(t) => Committed(SaveAccount(SetAutomation(t, r.enabled)))
  }

  // ---------- Evaluating the account ----------

  /** A claimed evaluation run, with what it froze and what its scoring found. */
  datatype EvaluationRun = EvaluationRun(
    date: int, evaluation: Evaluation, research: bool, strategy: int, universe: int, policy: RiskPolicy,
    parameters: StrategyParameters, issued: bool, peak: int, newId: nat -> OrderId)

  function SessionOn(calendar: Calendar, date: int): Result<Session> {
    SessionAmong(calendar.sessions, date)
  }

  function SessionAmong(sessions: seq<Session>, date: int): Result<Session> {
    if sessions == [] then Err(DataStale)
    else if sessions[0].date == date then Ok(sessions[0])
    else SessionAmong(sessions[1..], date)
  }

  /** The configuration chosen earlier takes effect at its opening. */
  function AdoptConfig(s: Store, now: int): Outcome {
    match s.account.pendingConfig
    case None => Committed(s)
    case Some(c) =>
      if now < c.effectiveAt then Committed(s)
      else Committed(SaveAccount(s.(account :=
                                    s.account.(strategy := c.strategy, universe := c.universe, policy := c.policy,
                                                          pendingConfig := None))))
  }

  predicate MayIssue(s: Store, run: EvaluationRun, target: Session, now: int) {
    && !run.research && now < target.openAt && s.account.automationEnabled
    && s.account.strategy == run.strategy && s.account.universe == run.universe && s.account.policy == run.policy
    && (s.account.pendingConfig.Some? ==> s.account.pendingConfig.value.effectiveAt > target.openAt)
    && !run.issued
    && forall n :: 0 <= n < |s.orders| && !s.orders[n].Terminal() ==> now < s.orders[n].targetOpenAt
  }

  function LiveDraft(s: Store, target: Session, expiresAt: int, now: int, p: PlannedOrder, capacity: int,
                     id: OrderId): Order {
    Order(id, s.account.id, p.instrument, p.side, Pending, p.reason, p.quantity, 0, capacity, 0, target.openAt,
          expiresAt, now, 1)
  }

  function SizeLive(s: Store, data: Snapshot, date: int, target: Session, expiresAt: int, now: int, p: PlannedOrder,
                    cash: int, id: OrderId): Result<Option<Order>> {
    var bars := Filter(data.bars, OfInstrument(p.instrument));
    var close := CloseOn(bars, date);
    if close <= 0 then Err(DataStale)
    else
      var capacity :- PreviousVolumeCapacity(bars, target.openAt);
      var o := LiveDraft(s, target, expiresAt, now, p, capacity, id);
      match p.side
      case Sell => Ok(Some(o.(reservedQuantity := o.quantity)))
      case Buy =>
        var size :- SizeToCash(close, p.quantity, cash);
        if size == 0 then Ok(None)
        else
          var cost :- ReservationCost(close, size);
          Ok(Some(o.(quantity := size, reservedCash := cost)))
  }

  /** The orders of the first `n` planned trades, and the cash left for buys. */
  function SizeBatch(s: Store, data: Snapshot, date: int, target: Session, expiresAt: int, now: int,
                     planned: seq<PlannedOrder>, n: nat, newId: nat -> OrderId): Result<(seq<Order>, int)>
    requires n <= |planned|
  {
    if n == 0 then Ok(([], s.account.balances.available))
    else
      var (batch, cash) :- SizeBatch(s, data, date, target, expiresAt, now, planned, n - 1, newId);
      var sized :- SizeLive(s, data, date, target, expiresAt, now, planned[n - 1], cash, newId(n - 1));
      match sized
      case None => Ok((batch, cash))
      case Some(o) => Ok((batch + [o], cash - o.reservedCash))
  }

  function IssueBatch(s: Store, data: Snapshot, run: EvaluationRun, target: Session, now: int,
                      planned: seq<PlannedOrder>): Outcome {
    match NextSession(data.calendar, target.closeAt)
    case Err(e) => RolledBack(e)
    case Ok(following) =>
      if !SettlementKnown(data.calendar, target.openAt) then Committed(s)
      else
        match SizeBatch(s, data, run.date, target, following.closeAt, now, planned, |planned|, run.newId)
        case Err(e) => RolledBack(e)
        case Ok((batch, _)) =>
          var reserved := Reserve(s, batch);
          if reserved.Declined? then RolledBack(reserved.error) else reserved
  }

  function PauseAutomation(s: Store, now: int): Outcome {
    match CancelBeforeOpen(s, now, DrawdownPause, false)
    case Err(e) => RolledBack(e)
    case Ok(t) => Committed(SaveAccount(SetAutomation(t, false)))
  }

  function LivePlanInput(s: Store, data: Snapshot, run: EvaluationRun, target: Session, nav: int): PortfolioInput {
    PortfolioInput(s.account, s.positions, ListPending(s.orders), data, run.evaluation, s.account.policy, nav, run.peak,
                   Sum(s.fills, GrossOn(target.date)), map[], run.parameters)
  }

  function IssueOrders(s: Store, data: Snapshot, now: int, run: EvaluationRun, target: Session): Outcome {
    if !MayIssue(s, run, target, now) then Committed(s)
    else
      match ComputeNAV(s.account, s.positions, data, map[])
      case Err(_) => Committed(s)
      case Ok(nav) =>
        match BuildRebalance(LivePlanInput(s, data, run, target, nav))
        case Err(e) => RolledBack(e)
        case Ok(plan) =>
          if plan.pause then PauseAutomation(s, now)
          else if plan.orders == [] then Committed(s)
          else IssueBatch(s, data, run, target, now, plan.orders)
  }

  function EvaluateAccount(s: Store, data: Snapshot, now: int, run: EvaluationRun): Outcome {
    match SessionOn(data.calendar, run.date)
    case Err(e) => RolledBack(e)
    case Ok(session) =>
      match NextSession(data.calendar, session.closeAt)
      case Err(e) => RolledBack(e)
      case Ok(target) => IssueOrders(s, data, now, run, target)
  }

  // ---------- Executing orders ----------

  function BySideThenName(): (Order, Order) -> bool {
    (a: Order, b: Order) =>
      if a.side != b.side then a.side == Sell
      else if a.instrument != b.instrument then a.instrument < b.instrument
      else if a.createdAt != b.createdAt then a.createdAt < b.createdAt
      else Serial(a.id) < Serial(b.id)
  }

  predicate Concerns(account: Account, a: CorporateAction, o: Order) {
    a.instrument == o.instrument && (a.effectiveAt == 0 || account.createdAt <= a.effectiveAt <= o.targetOpenAt)
  }

  /** An action that must be reviewed or reconciled before an order of its instrument can be filled. */
  predicate BlockedBy(s: Store, a: CorporateAction, o: Order) {
    && Concerns(s.account, a, o)
    && (|| ApplyCorporateAction(s.account, [], a, []).Err?
        || (a.id in s.recorded && !SameActionEconomics(s.recorded[a.id], a))
        || (a.kind == Split && a.id !in s.recorded))
  }

  predicate ExecutionBlocked(s: Store, data: Snapshot, o: Order) {
    exists n :: 0 <= n < |data.actions| && BlockedBy(s, data.actions[n], o)
  }

  /** The opening prices of a date published by the deadline of an order, the last bar of a name winning. */
  function OpeningsFor(bars: seq<Bar>, o: Order): map<int, int> {
    if bars == [] then map[]
    else
      var b := bars[|bars| - 1];
      var found := OpeningsFor(bars[..|bars| - 1], o);
      if b.sessionDate == DateOf(o.targetOpenAt) && b.availableAt <= o.expiresAt && Opened(b)
      then found[b.instrument := b.open] else found
  }

  function FilledOn(date: int, id: int): Fill -> int {
    (f: Fill) => if DateOf(f.effectiveAt) == date && f.instrument == id then f.quantity else 0
  }

  /** The smallest capacity among all orders of an instrument and an opening date. */
  function CapacityLimit(orders: seq<Order>, date: int, id: int): Option<int> {
    if orders == [] then None
    else
      var least := CapacityLimit(orders[..|orders| - 1], date, id);
      var o := orders[|orders| - 1];
      if o.instrument != id || DateOf(o.targetOpenAt) != date then least
      else if least.None? || o.capacity < least.value then Some(o.capacity) else least
  }

  predicate Tradable(s: Store, data: Snapshot, o: Order) {
    var openings := OpeningsFor(data.bars, o);
    && !ExecutionBlocked(s, data, o) && o.instrument in openings
    && forall n :: 0 <= n < |s.positions| && s.positions[n].quantity > 0 ==> s.positions[n].instrument in openings
  }

  function LiveMatch(s: Store, data: Snapshot, o: Order, peak: int, now: int): Result<FillResult> {
    var date, openings := DateOf(o.targetOpenAt), OpeningsFor(data.bars, o);
    var prior := SelectSnapshot(data, o.targetOpenAt - 1);
    var nav :- ComputeNAV(s.account, s.positions, prior, openings);
    match CapacityLimit(s.orders, date, o.instrument)
    case None => Err(NotFound)
    case Some(limit) =>
      MatchAtOpen(MatchInput(
        o, At(openings, o.instrument), NotBelowZero(limit - Sum(s.fills, FilledOn(date, o.instrument))),
        PortfolioInput(s.account, s.positions, ListPending(s.orders), prior, Evaluation(false, []), s.account.policy,
                       nav, peak, Sum(s.fills, GrossOn(date)), openings, StrategyParameters([], 0.0, 0.0, 0.0, 0)),
        now))
  }

  function EffectiveAs(entries: seq<LedgerEntry>, at: int): seq<LedgerEntry> {
    seq(|entries|, n requires 0 <= n < |entries| => entries[n].(effectiveAt := at))
  }

  function ReleaseLive(s: Store, original: Order, state: OrderState, reason: Reason, at: int, now: int): Result<Store> {
    var m :- ReleaseOrder(s.account, s.positions, original, reason, now);
    CloseWith(s, original, Closed(original, state, reason), m.(entries := EffectiveAs(m.entries, at)))
  }

  function FillLive(s: Store, original: Order, fill: Fill, state: OrderState, reason: Reason): Result<Store> {
    var m :- ApplyFill(s.account, s.positions, fill);
    var t :- CloseWith(s, original, Closed(original, state, reason), m);
    Ok(t.(fills := t.fills + [fill]))
  }

  /** One order of an execution: filled, rejected, expired, or left to wait for its opening bar. */
  function ExecuteOne(s: Store, data: Snapshot, original: Order, peak: int, now: int): Result<Store> {
    var o := AdvanceOrder(original, now);
    if Tradable(s, data, o) then
      var matched :- LiveMatch(s, data, o, peak, now);
      match matched.fill
      case Some(fill) =>
        FillLive(s, original, fill, if matched.cancelledQuantity > 0 then PartiallyFilled else Filled, matched.reason)
      case None => ReleaseLive(s, original, Rejected, matched.reason, o.targetOpenAt, now)
    else if now < o.expiresAt then
      if original.state != o.state then SaveOrder(s, o, original.version) else Ok(s)
    else
      ReleaseLive(s, original, Expired, if ExecutionBlocked(s, data, o) then ActionUnresolved else DataUnavailable,
                  o.expiresAt, now)
  }

  predicate DueOn(o: Order, now: int, date: Option<int>) {
    now >= o.targetOpenAt && (date.Some? ==> date.value == DateOf(o.targetOpenAt))
  }

  function ExecuteEach(s: Store, data: Snapshot, pending: seq<Order>, n: nat, peak: int, now: int,
                       date: Option<int>): Result<Store>
    requires n <= |pending|
  {
    if n == 0 then Ok(s)
    else
      var before :- ExecuteEach(s, data, pending, n - 1, peak, now, date);
      if !DueOn(pending[n - 1], now, date) then Ok(before) else ExecuteOne(before, data, pending[n - 1], peak, now)
  }

  /** The account is saved again only when an entry was recorded. */
  function SaveIfChanged(before: Store, s: Store): Store {
    if |s.ledger| == |before.ledger| then s else SaveAccount(s)
  }

  function ExecuteOrders(s: Store, data: Snapshot, peak: int, now: int, date: Option<int>): Outcome {
    var pending := Sort(ListPending(s.orders), BySideThenName());
    match ExecuteEach(s, data, pending, |pending|, peak, now, date)
    case Err(e) => RolledBack(e)
    case Ok(t) => Committed(SaveIfChanged(s, t))
  }

  // ---------- Reconciling the account ----------

  function Unsettled(ledger: seq<LedgerEntry>): LedgerEntry -> bool {
    (e: LedgerEntry) => e.kind == SellFill && !HasKey(ledger, SettlementKey(e.key))
  }

  function ByEffectiveTime(): (LedgerEntry, LedgerEntry) -> bool {
    (a: LedgerEntry, b: LedgerEntry) => a.effectiveAt < b.effectiveAt
  }

  function RecordedAs(entries: seq<LedgerEntry>, now: int): seq<LedgerEntry> {
    seq(|entries|, n requires 0 <= n < |entries| => entries[n].(recordedAt := now))
  }

  function ClaimAll(s: Store, entries: seq<LedgerEntry>): Result<Store> {
    if entries == [] then Ok(s)
    else
      var t :- ClaimAll(s, entries[..|entries| - 1]);
      ClaimEvent(t, entries[|entries| - 1].key)
  }

  function SettleLive(s: Store, calendar: Calendar, through: int, now: int): Result<Store> {
    var sales := Sort(Filter(s.ledger, Unsettled(s.ledger)), ByEffectiveTime());
    var m :- SettleReceivables(s.account, sales, calendar, through);
    var claimed :- ClaimAll(s, m.entries);
    var logged :- InsertLedger(claimed, RecordedAs(m.entries, now));
    Ok(logged.(account := m.account))
  }

  /** Cancels an order a split invalidates: one whose opening is not before it, awaiting its bar or not. */
  function CancelSplitOne(s: Store, a: CorporateAction, id: OrderId, now: int): Result<Store> {
    var k := Find(s.orders, id);
    if k == |s.orders| || !CancelledBySplit(s.orders[k], a) then Ok(s)
    else
      var m :- ReleaseOrder(s.account, s.positions, s.orders[k], PreOpenAction, now);
      CloseWith(s, s.orders[k], Closed(s.orders[k], Cancelled, PreOpenAction),
                m.(entries := RecordedAs(EffectiveAs(m.entries, a.effectiveAt), now)))
  }

  function CancelSplit(s: Store, a: CorporateAction, pending: seq<Order>, n: nat, now: int): Result<Store>
    requires n <= |pending|
  {
    if n == 0 then Ok(s)
    else
      var before :- CancelSplit(s, a, pending, n - 1, now);
      CancelSplitOne(before, a, pending[n - 1].id, now)
  }

  predicate InventoryChanged(s: Store, id: int, at: int) {
    || (exists n :: 0 <= n < |s.fills| && s.fills[n].instrument == id && s.fills[n].effectiveAt >= at)
    || (exists i :: 0 <= i < |s.ledger| && s.ledger[i].instrument == id && s.ledger[i].kind == SplitAdjustment
                    && s.ledger[i].effectiveAt > at)
  }

  predicate PriorOpeningUnresolved(s: Store, a: CorporateAction) {
    exists n :: 0 <= n < |s.orders| && s.orders[n].instrument == a.instrument && !s.orders[n].Terminal()
                && s.orders[n].targetOpenAt < a.effectiveAt
  }

  /** The holders of record: the shares held before the action, when there are any. */
  function EligibleHolders(ledger: seq<LedgerEntry>, a: CorporateAction): seq<Position> {
    var shares := Sum(ledger, EligibleShares(a));
    if shares > 0 then [Position(a.instrument, shares, 0, 0)] else []
  }

  function TakeLive(s: Store, a: CorporateAction, now: int): Result<Store> {
    var claimed :- ClaimEvent(s, ActionKey(a.id));
    var m :- ApplyCorporateAction(s.account, s.positions, a, EligibleHolders(s.ledger, a));
    var logged :- InsertLedger(claimed, RecordedAs(m.entries, now));
    Ok(logged.(account := m.account, positions := m.positions, recorded := s.recorded[a.id := a]))
  }

  function PayLive(s: Store, a: CorporateAction, through: int, now: int): Result<Store> {
    if HasKey(s.ledger, PaymentKey(a.id)) then Ok(s)
    else
      match FirstWithKey(s.ledger, ActionKey(a.id))
      case None => Err(NotFound)
      case Some(accrual) =>
        var m :- PayDividend(s.account, a, accrual, through);
        var claimed :- ClaimEvent(s, PaymentKey(a.id));
        var logged :- InsertLedger(claimed, RecordedAs(m.entries, now));
        Ok(logged.(account := m.account))
  }

  /** An action not recorded yet is taken unless it is blocked; a block leaves the account as it is and goes on. */
  function TakeUnlessBlocked(s: Store, a: CorporateAction, now: int): Result<(Store, bool)> {
    var pending := ListPending(s.orders);
    var ready :- if a.kind == Split then CancelSplit(s, a, pending, |pending|, now) else Ok(s);
    if (a.kind == Split && InventoryChanged(ready, a.instrument, a.effectiveAt)) || PriorOpeningUnresolved(ready, a)
       || ApplyCorporateAction(ready.account, ready.positions, a, []).Err?
    then Ok((ready, true))
    else
      var taken :- TakeLive(ready, a, now);
      Ok((taken, false))
  }

  function ByEffectThenId(): (CorporateAction, CorporateAction) -> bool {
    (a: CorporateAction, b: CorporateAction) =>
      if a.effectiveAt != b.effectiveAt then a.effectiveAt < b.effectiveAt
      else if (a.kind == Split) != (b.kind == Split) then a.kind == Split
      else a.id < b.id
  }

  predicate InScope(s: Store, a: CorporateAction, relevant: set<int>, through: int) {
    a.instrument in relevant && (a.effectiveAt == 0 || s.account.createdAt <= a.effectiveAt <= through)
  }

  function ReconcileOne(s: Store, a: CorporateAction, relevant: set<int>, through: int, now: int): Result<Store> {
    if !InScope(s, a, relevant, through) then Ok(s)
    else if a.id in s.recorded && !SameActionEconomics(s.recorded[a.id], a) then Ok(s)
    else
      var (taken, blocked) :- if a.id in s.recorded then Ok((s, false)) else TakeUnlessBlocked(s, a, now);
      if !blocked && a.kind == Dividend && through >= a.payAt then PayLive(taken, a, through, now) else Ok(taken)
  }

  function ReconcileEach(s: Store, actions: seq<CorporateAction>, n: nat, relevant: set<int>, through: int,
                         now: int): Result<Store>
    requires n <= |actions|
  {
    if n == 0 then Ok(s)
    else
      var before :- ReconcileEach(s, actions, n - 1, relevant, through, now);
      ReconcileOne(before, actions[n - 1], relevant, through, now)
  }

  function Relevant(s: Store, universe: set<int>): set<int> {
    universe
    + (set n | 0 <= n < |s.positions| && s.positions[n].quantity > 0 :: s.positions[n].instrument)
    + (set n | 0 <= n < |s.orders| && !s.orders[n].Terminal() :: s.orders[n].instrument)
  }

  /** `through` defaults to now and cannot be later. */
  function ReconcileAccount(s: Store, data: Snapshot, universe: set<int>, through: int, now: int): Outcome {
    if through > now then RolledBack(InvalidInput)
    else
      match SettleLive(s, data.calendar, through, now)
      case Err(e) => RolledBack(e)
      case Ok(settled) =>
        var actions := Sort(data.actions, ByEffectThenId());
        match ReconcileEach(settled, actions, |actions|, Relevant(s, universe), through, now)
        case Err(e) => RolledBack(e)
        case Ok(t) => Committed(SaveIfChanged(s, t))
  }

  // ---------- Commands ----------

  datatype Command =
    | Place(data: Result<Snapshot>, now: int, peak: int, place: PlaceRequest)
    | Cancel(now: int, id: OrderId, expectedVersion: int)
    | Configure(data: Result<Snapshot>, now: int, configure: ConfigureRequest)
    | Adopt(now: int)
    | Evaluate(snapshot: Snapshot, now: int, run: EvaluationRun)
    | Execute(snapshot: Snapshot, now: int, peak: int, date: Option<int>)
    | Reconcile(snapshot: Snapshot, universe: set<int>, through: int, now: int)

  function Run(s: Store, c: Command): Outcome {
    match c
    case Place(data, now, peak, r) => PlaceOrder(s, data, now, peak, r)
    case Cancel(now, id, expected) => CancelOrder(s, now, id, expected)
    case Configure(data, now, r) => ConfigureAutomation(s, data, now, r)
    case Adopt(now) => AdoptConfig(s, now)
    case Evaluate(data, now, run) => EvaluateAccount(s, data, now, run)
    case Execute(data, now, peak, date) => ExecuteOrders(s, data, peak, now, date)
    case Reconcile(data, universe, through, now) => ReconcileAccount(s, data, universe, through, now)
  }

  /** What is stored after any sequence of commands, in the order their transactions took the lock. */
  function AfterAll(s: Store, commands: seq<Command>): Store {
    if commands == [] then s
    else
      var before := AfterAll(s, commands[..|commands| - 1]);
      Run(before, commands[|commands| - 1]).After(before)
  }
}
