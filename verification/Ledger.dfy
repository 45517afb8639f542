/** The operations that write the cash ledger: reserve, release, fill, settle, corporate actions, dividend payment. */
module Ledger {
  import opened Outcomes
  import opened Money
  import opened Domain
  import opened Calendars

  // ---------- Fills ----------

  predicate WellFormedFill(account: Account, fill: Fill) {
    && fill.account == account.id && fill.quantity > 0 && fill.price > 0 && fill.fee > 0
    && fill.reservedCash >= 0 && fill.reservedQuantity >= 0
    && var gross := GrossValue(fill.price, fill.quantity);
      gross.Ok? && gross.value == fill.gross && TradeFee(gross.value) == Ok(fill.fee)
  }

  function FillError(account: Account, fill: Fill): Error {
    if fill.account != account.id || fill.quantity <= 0 || fill.price <= 0 || fill.fee <= 0
       || fill.reservedCash < 0 || fill.reservedQuantity < 0 then InvalidInput
    else
      var gross := GrossValue(fill.price, fill.quantity);
      if gross.Err? then gross.error else InvalidInput
  }

  /** What a fill does to its position row and to the cash buckets. */
  function FillEffect(p: Position, fill: Fill): Result<(Position, Balances)> {
    match fill.side
    case Buy =>
      var cost :- AddMoney(fill.gross, fill.fee);
      if cost > fill.reservedCash then Err(InsufficientCash)
      else
        var quantity :- AddMoney(p.quantity, fill.quantity);
        var basis :- AddMoney(p.costBasis, cost);
        Ok((p.(quantity := quantity, costBasis := basis),
            Balances(fill.reservedCash - cost, -fill.reservedCash, 0, 0)))
    case Sell =>
      if p.quantity < fill.quantity || p.reservedQuantity < fill.reservedQuantity
         || fill.reservedQuantity < fill.quantity || fill.gross < fill.fee then Err(InsufficientCash)
      else
        var cost :- ProportionalCost(p.costBasis, fill.quantity, p.quantity);
        Ok((p.(costBasis := p.costBasis - cost, quantity := p.quantity - fill.quantity,
               reservedQuantity := p.reservedQuantity - fill.reservedQuantity),
            Balances(0, 0, fill.gross - fill.fee, 0)))
  }

  function FillEntry(account: Account, fill: Fill, delta: Balances): LedgerEntry {
    LedgerEntry(account.id, FillKey(fill.orderId), if fill.side == Buy then BuyFill else SellFill, fill.instrument,
                delta, if fill.side == Buy then fill.quantity else -fill.quantity, fill.effectiveAt, fill.recordedAt)
  }

  function ApplyFill(account: Account, positions: seq<Position>, fill: Fill): Result<Mutation> {
    if !WellFormedFill(account, fill) then Err(FillError(account, fill))
    else if Occurrences(positions, fill.instrument) > 1 then Err(InvalidInput)
    else
      var n := IndexOf(positions, fill.instrument);
      if n == |positions| && fill.side == Sell then Err(InsufficientCash)
      else
        var rows := if n == |positions| then positions + [Position(fill.instrument, 0, 0, 0)] else positions;
        var (row, delta) :- FillEffect(rows[n], fill);
        var balances :- ApplyDelta(account.balances, delta);
        Ok(Mutation(account.(balances := balances), SortPositions(rows[n := row]),
                    [FillEntry(account, fill, delta)]))
  }

  // ---------- Releases ----------

  /** The rows with the reserved shares of an instrument changed, on every row it has. */
  function MoveShares(positions: seq<Position>, id: int, change: int): seq<Position> {
    seq(|positions|, n requires 0 <= n < |positions| =>
      if positions[n].instrument == id
      then positions[n].(reservedQuantity := positions[n].reservedQuantity + change) else positions[n])
  }

  function ReleaseShares(positions: seq<Position>, id: int, quantity: int): Result<seq<Position>> {
    if exists n :: 0 <= n < |positions| && positions[n].instrument == id && positions[n].reservedQuantity < quantity
    then Err(InvalidInput) else Ok(MoveShares(positions, id, -quantity))
  }

  function ReleaseEntry(account: Account, o: Order, kind: EntryKind, now: int): LedgerEntry {
    var delta := if o.side == Buy then Balances(o.reservedCash, -o.reservedCash, 0, 0) else NO_CASH;
    LedgerEntry(account.id, ReleaseKey(o.id), kind, o.instrument, delta, 0, now, now)
  }

  function ReleaseOrder(account: Account, positions: seq<Position>, o: Order, why: Reason, now: int): Result<Mutation> {
    if o.account != account.id || o.Terminal() || o.reservedCash < 0 || o.reservedQuantity < 0 then Err(InvalidInput)
    else
      var rows :- if o.side == Buy then Ok(positions)
                  else if Occurrences(positions, o.instrument) == 0 then Err(InvalidInput)
                  else ReleaseShares(positions, o.instrument, o.reservedQuantity);
      var entry := ReleaseEntry(account, o, Released(why), now);
      var balances :- ApplyDelta(account.balances, entry.delta);
      Ok(Mutation(account.(balances := balances), rows, [entry]))
  }

  // ---------- Reservations ----------

  predicate WellFormedReservation(account: Account, o: Order) {
    && o.account == account.id && o.state == Pending && 0 < o.quantity <= MAX_ORDER_QUANTITY && o.capacity >= 0
    && o.createdAt < o.targetOpenAt < o.expiresAt
    && match o.side
       case Buy => o.reservedCash > 0 && o.reservedQuantity == 0
       case Sell => o.reservedCash == 0 && o.reservedQuantity == o.quantity
  }

  function ReserveShares(positions: seq<Position>, id: int, quantity: int): Result<seq<Position>> {
    if exists n :: 0 <= n < |positions| && positions[n].instrument == id
                   && positions[n].quantity - positions[n].reservedQuantity < quantity
    then Err(InsufficientCash) else Ok(MoveShares(positions, id, quantity))
  }

  function ReserveEntry(account: Account, o: Order): LedgerEntry {
    var delta := if o.side == Buy then Balances(-o.reservedCash, o.reservedCash, 0, 0) else NO_CASH;
    LedgerEntry(account.id, ReserveKey(o.id), if o.side == Buy then ReserveBuy else ReserveSell, o.instrument,
                delta, 0, o.createdAt, o.createdAt)
  }

  function ReserveOne(account: Account, positions: seq<Position>, o: Order): Result<Mutation> {
    if !WellFormedReservation(account, o) then Err(InvalidInput)
    else
      var rows :- if o.side == Buy then Ok(positions)
                  else if Occurrences(positions, o.instrument) == 0 then Err(InsufficientCash)
                  else ReserveShares(positions, o.instrument, o.quantity);
      var entry := ReserveEntry(account, o);
      var balances :- ApplyDelta(account.balances, entry.delta);
      Ok(Mutation(account.(balances := balances), rows, [entry]))
  }

  /** Reserves a batch in order; a batch that lists an order twice is refused. */
  function ReserveOrders(account: Account, positions: seq<Position>, orders: seq<Order>): Result<Mutation> {
    if orders == [] then Ok(Mutation(account, positions, []))
    else
      var o := orders[|orders| - 1];
      var m :- ReserveOrders(account, positions, orders[..|orders| - 1]);
      if exists k :: 0 <= k < |orders| - 1 && orders[k].id == o.id then Err(InvalidInput)
      else
        var last :- ReserveOne(m.account, m.positions, o);
        Ok(last.(entries := m.entries + last.entries))
  }

  // ---------- Settlement ----------

  function SettlementEntry(account: Account, e: LedgerEntry, due: int, now: int): LedgerEntry {
    LedgerEntry(account.id, SettlementKey(e.key), Settlement, e.instrument,
                Balances(e.delta.unsettled, 0, -e.delta.unsettled, 0), 0, due, now)
  }

  predicate Receivable(account: Account, e: LedgerEntry) {
    e.kind == SellFill && e.account == account.id && e.delta.unsettled >= 0
  }

  /** Moves the proceeds of every entry whose settlement day has begun from unsettled to available. */
  function SettleReceivables(account: Account, entries: seq<LedgerEntry>, calendar: Calendar,
                             now: int): Result<CashMutation> {
    if entries == [] then Ok(CashMutation(account, []))
    else
      var e := entries[|entries| - 1];
      var m :- SettleReceivables(account, entries[..|entries| - 1], calendar, now);
      if !Receivable(account, e) || exists k :: 0 <= k < |entries| - 1 && entries[k].key == e.key then Err(InvalidInput)
      else
        var due :- SettlementStart(calendar, e.effectiveAt);
        if now < due then Ok(m)
        else
          var entry := SettlementEntry(account, e, due, now);
          var balances :- ApplyDelta(m.account.balances, entry.delta);
          Ok(m.(account := m.account.(balances := balances), entries := m.entries + [entry]))
  }

  // ---------- Corporate actions ----------

  /** Shares after a split, in parts of the denominator. */
  function SplitTotal(quantity: int, numerator: int): (total: int)
    requires quantity >= 0 && numerator > 0
    ensures total >= 0
  {
    MulMonotone(quantity, 0, numerator);
    quantity * numerator
  }

  /** The row after a split, and the cash paid for the fraction of a share that is lost. */
  function SplitRow(p: Position, a: CorporateAction): Result<(Position, int)>
    requires a.denominator > 0 && p.quantity >= 0 && a.numerator > 0
  {
    var total := SplitTotal(p.quantity, a.numerator);
    var whole, fraction := total / a.denominator, total % a.denominator;
    if !FitsInt64(whole) then Err(NumericOverflow)
    else if total == 0 || fraction == 0 then Ok((p.(quantity := whole), 0))
    else if a.cashInLieu.None? || a.cashInLieu.value < 0 || !a.perPostSplitShare then Err(ActionIncomplete)
    else
      var cash := ShareOf(a.cashInLieu.value, fraction, a.denominator);
      var cost := ShareOf(p.costBasis, fraction, total);
      if !FitsInt64(cash) || !FitsInt64(cost) then Err(NumericOverflow)
      else Ok((p.(quantity := whole, costBasis := p.costBasis - cost), cash))
  }

  predicate Splittable(p: Position) {
    p.reservedQuantity == 0 && p.quantity >= 0 && p.costBasis >= 0
  }

  /** Splits the row of the instrument; the entry carries the change of quantity and the cash in lieu. */
  function ApplySplit(positions: seq<Position>, a: CorporateAction): Result<(seq<Position>, int, int)>
    requires a.numerator > 0 && a.denominator > 0
  {
    var n := IndexOf(positions, a.instrument);
    if n == |positions| then Ok((positions, 0, 0))
    else if !Splittable(positions[n]) then Err(InvalidInput)
    else
      var (row, cash) :- SplitRow(positions[n], a);
      if Occurrences(positions, a.instrument) > 1 then Err(InvalidInput)
      else Ok((positions[n := row], row.quantity - positions[n].quantity, cash))
  }

  function EligibleQuantity(eligibility: seq<Position>, id: int): Result<int> {
    if eligibility == [] then Ok(0)
    else
      var p := eligibility[|eligibility| - 1];
      var q :- EligibleQuantity(eligibility[..|eligibility| - 1], id);
      if p.instrument != id then Ok(q)
      else if p.quantity < 0 then Err(InvalidInput)
      else AddMoney(q, p.quantity)
  }

  function ActionEntry(account: Account, a: CorporateAction, kind: EntryKind, delta: Balances,
                       quantityDelta: int): LedgerEntry {
    LedgerEntry(account.id, ActionKey(a.id), kind, a.instrument, delta, quantityDelta, a.effectiveAt, a.availableAt)
  }

  function ApplyCorporateAction(account: Account, positions: seq<Position>, a: CorporateAction,
                                eligibility: seq<Position>): Result<Mutation>
  {
    if !a.inDollars || a.effectiveAt == 0 then Err(ActionIncomplete)
    else
      match a.kind
      case Split =>
        if a.numerator <= 0 || a.denominator <= 0 then Err(ActionIncomplete)
        else
          var (rows, change, cash) :- ApplySplit(positions, a);
          var entry := ActionEntry(account, a, SplitAdjustment, Balances(cash, 0, 0, 0), change);
          var balances :- ApplyDelta(account.balances, entry.delta);
          Ok(Mutation(account.(balances := balances), rows, [entry]))
      case Dividend =>
        if a.amount <= 0 || a.payAt == 0 || a.payAt < a.effectiveAt then Err(ActionIncomplete)
        else
          var quantity :- EligibleQuantity(eligibility, a.instrument);
          var amount :- if quantity > 0 then GrossValue(a.amount, quantity) else Ok(0);
          var entry := ActionEntry(account, a, DividendAccrual, Balances(0, 0, 0, amount), 0);
          var balances :- ApplyDelta(account.balances, entry.delta);
          Ok(Mutation(account.(balances := balances), positions, [entry]))
      case UnsupportedAction => Err(ActionIncomplete)
  }

  function PaymentEntry(account: Account, a: CorporateAction, accrued: int, now: int): LedgerEntry {
    LedgerEntry(account.id, PaymentKey(a.id), DividendPayment, a.instrument,
                Balances(accrued, 0, 0, -accrued), 0, a.payAt, now)
  }

  function PayDividend(account: Account, a: CorporateAction, accrual: LedgerEntry, now: int): Result<CashMutation> {
    if a.payAt == 0 || now < a.payAt || accrual.account != account.id || accrual.key != ActionKey(a.id)
       || accrual.delta.dividends < 0 then Err(ActionIncomplete)
    else
      var entry := PaymentEntry(account, a, accrual.delta.dividends, now);
      var balances :- ApplyDelta(account.balances, entry.delta);
      Ok(CashMutation(account.(balances := balances), [entry]))
  }
}
