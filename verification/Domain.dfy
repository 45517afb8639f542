// Entities of the paper-trading engine.
// Identifiers are integers (any totally ordered set would do). Instants count nanoseconds from the zero time, so an
// unset instant is 0; a date is the day number of an instant. Policy weights and scores are exact rationals.
module Domain {
  import opened Outcomes
  import opened Money
  import opened Lists

  const DAY: int := 86_400_000_000_000
  const HALF_HOUR: int := 1_800_000_000_000

  function DateOf(t: int): int {
    t / DAY
  }

  // ---------- Accounts ----------

  datatype Balances = Balances(available: int, reserved: int, unsettled: int, dividends: int)

  const NO_CASH := Balances(0, 0, 0, 0)

  function ApplyBucket(held: int, change: int): Result<int> {
    var v :- AddMoney(held, change);
    if v < 0 then Err(InsufficientCash) else Ok(v)
  }

  function ApplyDelta(b: Balances, d: Balances): Result<Balances> {
    var available :- ApplyBucket(b.available, d.available);
    var reserved :- ApplyBucket(b.reserved, d.reserved);
    var unsettled :- ApplyBucket(b.unsettled, d.unsettled);
    var dividends :- ApplyBucket(b.dividends, d.dividends);
    Ok(Balances(available, reserved, unsettled, dividends))
  }

  function TotalCash(b: Balances): Result<int> {
    var one :- AddMoney(0, b.available);
    var two :- AddMoney(one, b.reserved);
    var three :- AddMoney(two, b.unsettled);
    AddMoney(three, b.dividends)
  }

  predicate SoundBalances(b: Balances) {
    && 0 <= b.available <= MAX_INT64
    && 0 <= b.reserved <= MAX_INT64
    && 0 <= b.unsettled <= MAX_INT64
    && 0 <= b.dividends <= MAX_INT64
  }

  datatype RiskPolicy = RiskPolicy(
    singleWeight: real, industryWeight: real, stockWeight: real,
    drawdownPause: real, stopLoss: real, turnoverLimit: real)
  {
    predicate Valid() {
      && 0.0 < singleWeight <= 0.1 && 0.0 < industryWeight <= 0.3 && 0.0 < stockWeight <= 0.8
      && 0.0 < drawdownPause <= 0.15 && 0.0 < stopLoss <= 0.1 && 0.0 < turnoverLimit <= 0.2
      && singleWeight <= industryWeight <= stockWeight
    }
  }

  const DEFAULT_POLICY := RiskPolicy(0.1, 0.3, 0.8, 0.15, 0.1, 0.2)

  datatype AccountConfig = AccountConfig(strategy: int, universe: int, policy: RiskPolicy, effectiveAt: int)

  datatype Account = Account(
    id: int, strategy: int, universe: int, balances: Balances, initialCash: int, version: int,
    automationEnabled: bool, policy: RiskPolicy, pendingConfig: Option<AccountConfig>, createdAt: int)

  // ---------- Orders ----------

  datatype OrderId =
    | ReplayId(day: int, instrument: int, side: Side)
    | FreshId(serial: int)

  datatype OrderState = Pending | AwaitingBar | Filled | PartiallyFilled | Expired | Rejected | Cancelled

  datatype Reason =
    | NoReason
    | StopLoss | ExitSignal | ReduceSingleRisk | ReduceIndustryRisk | ReduceStockRisk | EntrySignal
    | RiskLimitExceeded | DrawdownPause | InstrumentIneligible | IndustryUnknown | CandidateIneligible | NoSettledCash
    | CapacityExhausted | GrossBelowFee | RemainderCancelled | SplitCancel | Unmatched | DataUnavailable
    | ActionUnresolved
    | UserCancelled | UserPaused | ConfigurationChanged | PreOpenAction

  datatype Order = Order(
    id: OrderId, account: int, instrument: int, side: Side, state: OrderState, reason: Reason,
    quantity: int, reservedQuantity: int, capacity: int, reservedCash: int,
    targetOpenAt: int, expiresAt: int, createdAt: int, version: int)
  {
    predicate Terminal() {
      state != Pending && state != AwaitingBar
    }

    predicate CancellableAt(now: int) {
      state == Pending && now < targetOpenAt
    }
  }

  function AdvanceOrder(o: Order, now: int): Order {
    if o.state == Pending && now >= o.targetOpenAt then o.(state := AwaitingBar) else o
  }

  /** Sells that reduce risk may exceed the turnover budget. */
  predicate EmergencySell(reason: Reason) {
    reason == StopLoss || reason == ReduceSingleRisk || reason == ReduceIndustryRisk || reason == ReduceStockRisk
  }

  // ---------- Positions ----------

  datatype Position = Position(instrument: int, quantity: int, reservedQuantity: int, costBasis: int)

  function Occurrences(positions: seq<Position>, id: int): nat {
    if positions == [] then 0
    else (if positions[0].instrument == id then 1 else 0) + Occurrences(positions[1..], id)
  }

  /** Index of the first row of an instrument, or the length when there is none. */
  function IndexOf(positions: seq<Position>, id: int): (n: nat)
    ensures n <= |positions|
    ensures n < |positions| ==> positions[n].instrument == id
    ensures forall k :: 0 <= k < n ==> positions[k].instrument != id
  {
    if positions == [] then 0
    else if positions[0].instrument == id then 0
    else 1 + IndexOf(positions[1..], id)
  }

  function ByInstrument(): (Position, Position) -> bool {
    (p: Position, q: Position) => p.instrument < q.instrument
  }

  function SortPositions(positions: seq<Position>): seq<Position> {
    Sort(positions, ByInstrument())
  }

  // ---------- Ledger ----------

  datatype EventKey =
    | ReserveKey(order: OrderId)
    | FillKey(order: OrderId)
    | ReleaseKey(order: OrderId)
    | ActionKey(action: int)
    | PaymentKey(action: int)
    | SettlementKey(settled: EventKey)

  datatype EntryKind =
    | ReserveBuy | ReserveSell | BuyFill | SellFill | Released(why: Reason)
    | Settlement | SplitAdjustment | DividendAccrual | DividendPayment | OtherAction

  datatype LedgerEntry = LedgerEntry(
    account: int, key: EventKey, kind: EntryKind, instrument: int, delta: Balances,
    quantityDelta: int, effectiveAt: int, recordedAt: int)

  datatype Fill = Fill(
    orderId: OrderId, account: int, instrument: int, side: Side, reason: Reason, quantity: int, price: int,
    gross: int, fee: int, reservedCash: int, reservedQuantity: int, effectiveAt: int, recordedAt: int, settlesAt: int)

  /** What an operation changes: the account, the position rows and the entries it records. */
  datatype Mutation = Mutation(account: Account, positions: seq<Position>, entries: seq<LedgerEntry>)

  /** A mutation that leaves the position rows alone. */
  datatype CashMutation = CashMutation(account: Account, entries: seq<LedgerEntry>)

  // ---------- Corporate actions ----------

  datatype ActionKind = Split | Dividend | UnsupportedAction

  datatype CorporateAction = CorporateAction(
    id: int, instrument: int, kind: ActionKind, inDollars: bool,
    effectiveAt: int, availableAt: int, ingestedAt: int, payAt: int,
    numerator: int, denominator: int, amount: int, cashInLieu: Option<int>, perPostSplitShare: bool)

  predicate SameActionEconomics(a: CorporateAction, b: CorporateAction) {
    a == b.(availableAt := a.availableAt, ingestedAt := a.ingestedAt)
  }
}
