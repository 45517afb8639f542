/** The backtest: a book of one account driven over the sessions of a calendar. */
module Replay {
  import opened Outcomes
  import opened Money
  import opened Sizing
  import opened Domain
  import opened Calendars
  import opened Lists
  import opened Sums
  import opened Ledger
  import opened Snapshots
  import opened Risk
  import opened Rebalance
  import opened Execution

  datatype Book = Book(
    account: Account, positions: seq<Position>, orders: seq<Order>, ledger: seq<LedgerEntry>, fills: seq<Fill>,
    applied: map<int, CorporateAction>, paid: set<int>, settled: set<EventKey>, peak: int)

  /** `evaluate` is the scoring of a snapshot, taken as it is. */
  datatype ReplayInput = ReplayInput(
    source: Snapshot, universe: set<int>, evaluate: Snapshot -> Result<Evaluation>, parameters: StrategyParameters,
    initialCash: int, firstDate: int, lastDate: int)

  const REPLAY_ACCOUNT: int := 1
  const MAX_INITIAL_CASH: int := 100_000_000_000
  const WARMUP_BARS: nat := 201
  const MIN_SESSIONS: nat := 20

  function NewBook(initialCash: int): Book {
    Book(Account(REPLAY_ACCOUNT, 0, 0, Balances(initialCash, 0, 0, 0), initialCash, 0, true, DEFAULT_POLICY, None, 0),
         [], [], [], [], map[], {}, {}, initialCash)
  }

  function Record(b: Book, m: Mutation): Book {
    b.(account := m.account, positions := m.positions, ledger := b.ledger + m.entries)
  }

  function RecordCash(b: Book, m: CashMutation): Book {
    b.(account := m.account, ledger := b.ledger + m.entries)
  }

  // ---------- Reconciliation ----------

  function AwaitingSettlement(settled: set<EventKey>): LedgerEntry -> bool {
    (e: LedgerEntry) => e.kind == SellFill && e.key !in settled
  }

  function SettledKeys(entries: seq<LedgerEntry>): set<EventKey> {
    set e | e in entries && e.key.SettlementKey? :: e.key.settled
  }

  function Settle(b: Book, calendar: Calendar, now: int): Result<Book> {
    var m :- SettleReceivables(b.account, Filter(b.ledger, AwaitingSettlement(b.settled)), calendar, now);
    Ok(RecordCash(b, m).(settled := b.settled + SettledKeys(m.entries)))
  }

  function ByEffect(): (CorporateAction, CorporateAction) -> bool {
    (a: CorporateAction, b: CorporateAction) =>
      if a.effectiveAt != b.effectiveAt then a.effectiveAt < b.effectiveAt
      else if a.kind != b.kind then a.kind == Split
      else a.id < b.id
  }

  /** Releases an order of the book and gives it its final state. */
  function CloseUnfilled(b: Book, n: nat, why: Reason, state: OrderState, now: int): Result<Book>
    requires n < |b.orders|
  {
    var m :- ReleaseOrder(b.account, b.positions, b.orders[n], why, now);
    Ok(Record(b, m).(orders := b.orders[n := b.orders[n].(state := state)]))
  }

  predicate CancelledBySplit(o: Order, a: CorporateAction) {
    !o.Terminal() && o.instrument == a.instrument && o.targetOpenAt >= a.effectiveAt
  }

  function CancelForSplit(b: Book, a: CorporateAction, n: nat, now: int): (r: Result<Book>)
    requires n <= |b.orders|
    ensures r.Ok? ==> |r.value.orders| == |b.orders|
  {
    if n == 0 then Ok(b)
    else
      var before :- CancelForSplit(b, a, n - 1, now);
      if CancelledBySplit(before.orders[n - 1], a) then CloseUnfilled(before, n - 1, SplitCancel, Cancelled, now)
      else Ok(before)
  }

  /** Shares held before an action takes effect, splits of the same instant included. */
  function EligibleShares(a: CorporateAction): LedgerEntry -> int {
    (e: LedgerEntry) =>
      if e.instrument == a.instrument
         && (e.effectiveAt < a.effectiveAt || (e.kind == SplitAdjustment && e.effectiveAt == a.effectiveAt))
      then e.quantityDelta else 0
  }

  /** The only row of the eligibility list an action reads is the one of its own instrument. */
  function Eligibility(ledger: seq<LedgerEntry>, a: CorporateAction): seq<Position> {
    [Position(a.instrument, Sum(ledger, EligibleShares(a)), 0, 0)]
  }

  function ApplyAction(b: Book, a: CorporateAction): Result<Book> {
    var m :- ApplyCorporateAction(b.account, b.positions, a, Eligibility(b.ledger, a));
    Ok(Record(b, m).(applied := b.applied[a.id := a]))
  }

  function TakeAction(b: Book, a: CorporateAction, now: int): Result<Book> {
    if a.availableAt > a.effectiveAt then Err(ActionIncomplete)
    else
      var ready :- if a.kind == Split then CancelForSplit(b, a, |b.orders|, now) else Ok(b);
      ApplyAction(ready, a)
  }

  function FirstWithKey(ledger: seq<LedgerEntry>, key: EventKey): Option<LedgerEntry> {
    if ledger == [] then None
    else if ledger[0].key == key then Some(ledger[0])
    else FirstWithKey(ledger[1..], key)
  }

  function PayAction(b: Book, a: CorporateAction, now: int): Result<Book> {
    match FirstWithKey(b.ledger, ActionKey(a.id))
    case None => Err(ActionIncomplete)
    case Some(accrual) =>
      var m :- PayDividend(b.account, a, accrual, now);
      Ok(RecordCash(b, m).(paid := b.paid + {a.id}))
  }

  function ReconcileAction(b: Book, a: CorporateAction, now: int, relevant: set<int>): Result<Book> {
    if a.instrument !in relevant || a.effectiveAt > now then Ok(b)
    else if a.id in b.applied && !SameActionEconomics(b.applied[a.id], a) then Err(ActionIncomplete)
    else
      var taken :- if a.id in b.applied then Ok(b) else TakeAction(b, a, now);
      if a.kind == Dividend && a.id !in taken.paid && now >= a.payAt then PayAction(taken, a, now) else Ok(taken)
  }

  function ReconcileActions(b: Book, actions: seq<CorporateAction>, n: nat, now: int, relevant: set<int>): Result<Book>
    requires n <= |actions|
  {
    if n == 0 then Ok(b)
    else
      var before :- ReconcileActions(b, actions, n - 1, now, relevant);
      ReconcileAction(before, actions[n - 1], now, relevant)
  }

  function Reconcile(b: Book, s: Snapshot, now: int, relevant: set<int>): Result<Book> {
    var settled :- Settle(b, s.calendar, now);
    var actions := Sort(s.actions, ByEffect());
    ReconcileActions(settled, actions, |actions|, now, relevant)
  }

  // ---------- Planning ----------

  function OfInstrument(id: int): Bar -> bool {
    (b: Bar) => b.instrument == id
  }

  function LastClose(bars: seq<Bar>): int {
    if bars == [] then 0 else bars[|bars| - 1].close
  }

  function DraftOrder(s: Snapshot, target: Session, expiresAt: int, p: PlannedOrder, capacity: int): Order {
    Order(ReplayId(target.date, p.instrument, p.side), REPLAY_ACCOUNT, p.instrument, p.side, Pending, p.reason,
          p.quantity, 0, capacity, 0, target.openAt, expiresAt, s.asOf, 1)
  }

  /** The order a planned trade becomes, or nothing when the cash left buys no share. */
  function SizeOrder(s: Snapshot, target: Session, expiresAt: int, p: PlannedOrder, cash: int): Result<Option<Order>> {
    var bars := Filter(s.bars, OfInstrument(p.instrument));
    var capacity :- PreviousVolumeCapacity(bars, target.openAt);
    var o := DraftOrder(s, target, expiresAt, p, capacity);
    match p.side
    case Sell => Ok(Some(o.(reservedQuantity := o.quantity)))
    case Buy =>
      var size :- SizeToCash(LastClose(bars), p.quantity, cash);
      if size == 0 then Ok(None)
      else
        var cost :- ReservationCost(LastClose(bars), size);
        Ok(Some(o.(quantity := size, reservedCash := cost)))
  }

  function Issue(b: Book, o: Order): Result<Book> {
    var m :- ReserveOrders(b.account, b.positions, [o]);
    Ok(Record(b, m).(orders := b.orders + [o]))
  }

  /** The book after the first `n` planned trades, and the cash left for buys. */
  function IssueOrders(b: Book, s: Snapshot, target: Session, expiresAt: int, planned: seq<PlannedOrder>,
                       n: nat): Result<(Book, int)>
    requires n <= |planned|
  {
    if n == 0 then Ok((b, b.account.balances.available))
    else
      var (before, cash) :- IssueOrders(b, s, target, expiresAt, planned, n - 1);
      var sized :- SizeOrder(s, target, expiresAt, planned[n - 1], cash);
      match sized
      case None => Ok((before, cash))
      case Some(o) =>
        var issued :- Issue(before, o);
        Ok((issued, cash - o.reservedCash))
  }

  function EvaluationOf(input: ReplayInput, s: Snapshot): Result<Evaluation> {
    match input.evaluate(s)
    case Ok(e) => Ok(e)
    case Err(e) =>
      if e == InsufficientUniverse || e == FactorUnavailable then Ok(Evaluation(false, [])) else Err(e)
  }

  function PlanInput(b: Book, s: Snapshot, input: ReplayInput, evaluation: Evaluation, nav: int): PortfolioInput {
    PortfolioInput(b.account, b.positions, b.orders, s, evaluation, b.account.policy, nav, b.peak, 0, map[],
                   input.parameters)
  }

  function PlanSession(b: Book, s: Snapshot, input: ReplayInput, target: Session): Result<Book> {
    if !b.account.automationEnabled || Unresolved(b.orders) then Ok(b)
    else
      var evaluation :- EvaluationOf(input, s);
      var nav :- ComputeNAV(b.account, b.positions, s, map[]);
      var plan :- BuildRebalance(PlanInput(b, s, input, evaluation, nav));
      if plan.pause then Ok(b.(account := b.account.(automationEnabled := false)))
      else
        var following :- NextSession(s.calendar, target.closeAt);
        var (issued, _) :- IssueOrders(b, s, target, following.closeAt, plan.orders, |plan.orders|);
        Ok(issued)
  }

  // ---------- Execution ----------

  function ByOpening(): (Order, Order) -> bool {
    (a: Order, b: Order) =>
      if a.targetOpenAt != b.targetOpenAt then a.targetOpenAt < b.targetOpenAt
      else if a.side != b.side then a.side == Sell
      else a.instrument < b.instrument
  }

  /** The bars of a date by instrument, the last one winning. */
  function BarsOn(bars: seq<Bar>, date: int): map<int, Bar> {
    if bars == [] then map[]
    else
      var b := bars[|bars| - 1];
      var found := BarsOn(bars[..|bars| - 1], date);
      if b.sessionDate == date then found[b.instrument := b] else found
  }

  predicate Opened(b: Bar) {
    b.open > 0 && !b.noOpeningTrade
  }

  function OpeningPrices(bars: seq<Bar>, date: int): map<int, int> {
    if bars == [] then map[]
    else
      var b := bars[|bars| - 1];
      var found := OpeningPrices(bars[..|bars| - 1], date);
      if b.sessionDate == date && Opened(b) then found[b.instrument := b.open] else found
  }

  function SharesFilled(openAt: int, id: int): Fill -> int {
    (f: Fill) => if f.effectiveAt == openAt && f.instrument == id then f.quantity else 0
  }

  function GrossFilled(openAt: int): Fill -> int {
    (f: Fill) => if f.effectiveAt == openAt then f.gross else 0
  }

  /** The smallest capacity among the orders of an opening and an instrument, starting from one of them. */
  function SmallestCapacity(orders: seq<Order>, o: Order): int {
    if orders == [] then o.capacity
    else
      var least := SmallestCapacity(orders[..|orders| - 1], o);
      var other := orders[|orders| - 1];
      if other.targetOpenAt == o.targetOpenAt && other.instrument == o.instrument && other.capacity < least
      then other.capacity else least
  }

  /** Whether the opening bar an order waits for is there, in time and with a trade. */
  predicate HasOpening(current: Snapshot, o: Order) {
    var bars := BarsOn(current.bars, DateOf(o.targetOpenAt));
    o.instrument in bars && Opened(bars[o.instrument]) && bars[o.instrument].availableAt <= o.expiresAt
  }

  function OpeningMatch(b: Book, o: Order, prior: Snapshot, prices: map<int, int>, open: int, used: int, turnover: int,
                        now: int): Result<FillResult> {
    var nav :- ComputeNAV(b.account, b.positions, prior, prices);
    MatchAtOpen(MatchInput(
      o, open, NotBelowZero(SmallestCapacity(b.orders, o) - used),
      PortfolioInput(b.account, b.positions, b.orders, prior, Evaluation(false, []), b.account.policy, nav, 0, turnover,
                     prices, StrategyParameters([], 0.0, 0.0, 0.0, 0)),
      now))
  }

  function CloseFilled(b: Book, n: nat, fill: Fill, partial: bool): Result<Book>
    requires n < |b.orders|
  {
    var m :- ApplyFill(b.account, b.positions, fill);
    Ok(Record(b, m).(orders := b.orders[n := b.orders[n].(state := if partial then PartiallyFilled else Filled)],
                     fills := b.fills + [fill]))
  }

  /** Closes an order as its match says: filled, partially filled, or rejected. */
  function CloseMatched(b: Book, n: nat, matched: FillResult, now: int): Result<Book>
    requires n < |b.orders|
  {
    match matched.fill
    case None => CloseUnfilled(b, n, Unmatched, Rejected, now)
    case Some(fill) => CloseFilled(b, n, fill, matched.cancelledQuantity > 0)
  }

  function Advance(b: Book, n: nat, now: int): Book
    requires n < |b.orders|
  {
    b.(orders := b.orders[n := AdvanceOrder(b.orders[n], now)])
  }

  function ExecuteOrder(b: Book, source: Snapshot, current: Snapshot, n: nat, now: int): (r: Result<Book>)
    requires n < |b.orders|
    ensures r.Ok? ==> |r.value.orders| == |b.orders|
  {
    if b.orders[n].Terminal() || now < b.orders[n].targetOpenAt then Ok(b)
    else
      var b := Advance(b, n, now);
      var o := b.orders[n];
      if !HasOpening(current, o) then
        if now >= o.expiresAt then CloseUnfilled(b, n, DataUnavailable, Expired, now) else Ok(b)
      else
        var date := DateOf(o.targetOpenAt);
        var matched :- OpeningMatch(b, o, SelectSnapshot(source, o.targetOpenAt - 1), OpeningPrices(current.bars, date),
                                    BarsOn(current.bars, date)[o.instrument].open,
                                    Sum(b.fills, SharesFilled(o.targetOpenAt, o.instrument)),
                                    Sum(b.fills, GrossFilled(o.targetOpenAt)), now);
        CloseMatched(b, n, matched, now)
  }

  function ExecuteOrders(b: Book, source: Snapshot, current: Snapshot, n: nat, now: int): (r: Result<Book>)
    requires n <= |b.orders|
    ensures r.Ok? ==> |r.value.orders| == |b.orders|
  {
    if n == 0 then Ok(b)
    else
      var before :- ExecuteOrders(b, source, current, n - 1, now);
      ExecuteOrder(before, source, current, n - 1, now)
  }

  function Execute(b: Book, source: Snapshot, current: Snapshot, now: int): Result<Book> {
    var sorted := b.(orders := Sort(b.orders, ByOpening()));
    ExecuteOrders(sorted, source, current, |sorted.orders|, now)
  }

  // ---------- Sessions ----------

  function DecisionTime(s: Session): int {
    s.closeAt + HALF_HOUR
  }

  function OpenSession(b: Book, input: ReplayInput, previous: Session, session: Session): Result<Book> {
    var decisionAt := DecisionTime(previous);
    var decision := SelectSnapshot(input.source, decisionAt);
    var reconciled :- Reconcile(b, decision, decisionAt, input.universe);
    PlanSession(reconciled, decision, input, session)
  }

  function CloseSession(b: Book, input: ReplayInput, session: Session): Result<Book> {
    var now := DecisionTime(session);
    var current := SelectSnapshot(input.source, now);
    var atOpen :- Reconcile(b, current, session.openAt, input.universe);
    var executed :- Execute(atOpen, input.source, current, now);
    var closed :- Reconcile(executed, current, now, input.universe);
    var nav :- ComputeNAV(closed.account, closed.positions, current, map[]);
    Ok(if nav > closed.peak then closed.(peak := nav) else closed)
  }

  function RunSession(b: Book, input: ReplayInput, previous: Session, session: Session): Result<Book> {
    var planned :- OpenSession(b, input, previous, session);
    CloseSession(planned, input, session)
  }

  /** The book after `n` sessions; `days[0]` is the session before the first one. */
  function RunSessions(input: ReplayInput, days: seq<Session>, n: nat): Result<Book>
    requires n < |days|
  {
    if n == 0 then Ok(NewBook(input.initialCash))
    else
      var before :- RunSessions(input, days, n - 1);
      RunSession(before, input, days[n - 1], days[n])
  }

  function ByOpen(): (Session, Session) -> bool {
    (a: Session, b: Session) => a.openAt < b.openAt
  }

  function InRange(input: ReplayInput): Session -> bool {
    (s: Session) => input.firstDate <= s.date <= input.lastDate
  }

  function LastBefore(sessions: seq<Session>, date: int): Session {
    if sessions == [] then NO_SESSION
    else if sessions[|sessions| - 1].date < date then sessions[|sessions| - 1]
    else LastBefore(sessions[..|sessions| - 1], date)
  }

  function WarmBars(id: int, date: int): Bar -> bool {
    (b: Bar) => b.instrument == id && b.sessionDate < date
  }

  predicate Warm(input: ReplayInput, previous: Session) {
    var bars := SelectSnapshot(input.source, DecisionTime(previous)).bars;
    forall id :: id in input.universe ==> |Filter(bars, WarmBars(id, input.firstDate))| >= WARMUP_BARS
  }

  /** The sessions of a replay, preceded by the last session before its range. */
  function ReplayDays(input: ReplayInput): seq<Session> {
    var all := Sort(input.source.calendar.sessions, ByOpen());
    [LastBefore(all, input.firstDate)] + Filter(all, InRange(input))
  }

  function Admit(input: ReplayInput): Result<seq<Session>> {
    if input.initialCash <= 0 || input.initialCash > MAX_INITIAL_CASH || input.lastDate < input.firstDate
       || input.universe == {} || |input.universe| > 100 || !input.parameters.Valid() then Err(InvalidInput)
    else
      var days := ReplayDays(input);
      if |days| - 1 < MIN_SESSIONS || days[0].closeAt == 0 || !Warm(input, days[0]) then Err(DataStale) else Ok(days)
  }
}
