// What the reserved cash and the reserved shares of an account mean: they are exactly what its open orders hold.
// Each ledger operation keeps this meaning, and an order closed by a fill or a release gives back all it held.
module Reservations {
  import opened Outcomes
  import opened Money
  import opened Domain
  import opened Ledger
  import opened Sums
  import opened Holdings

  function CashHeld(): Order -> int {
    (o: Order) => if !o.Terminal() && o.side == Buy then o.reservedCash else 0
  }

  function SharesHeld(id: int): Order -> int {
    (o: Order) => if !o.Terminal() && o.side == Sell && o.instrument == id then o.reservedQuantity else 0
  }

  /** What `WellFormedReservation` establishes and every open order keeps until it is closed. */
  predicate SoundOrder(account: int, o: Order) {
    !o.Terminal() ==>
      && o.account == account
      && 0 < o.quantity <= MAX_ORDER_QUANTITY && o.capacity >= 0 && o.createdAt < o.targetOpenAt < o.expiresAt
      && match o.side
         case Buy => o.reservedCash > 0 && o.reservedQuantity == 0
         case Sell => o.reservedCash == 0 && o.reservedQuantity == o.quantity
  }

  predicate SoundOrders(account: int, orders: seq<Order>) {
    forall n :: 0 <= n < |orders| ==> SoundOrder(account, orders[n])
  }

  ghost predicate Backed(account: Account, positions: seq<Position>, orders: seq<Order>) {
    && SoundBalances(account.balances)
    && SoundRows(positions)
    && SoundOrders(account.id, orders)
    && account.balances.reserved == Sum(orders, CashHeld())
    && forall id :: Reserved(positions, id) == Sum(orders, SharesHeld(id))
  }

  /** The operations never change anything of the account but its balances. */
  predicate OnlyBalances(before: Account, after: Account) {
    after == before.(balances := after.balances)
  }

  lemma OpenOrderWithinReserved(account: Account, positions: seq<Position>, orders: seq<Order>, n: nat)
    requires Backed(account, positions, orders) && n < |orders| && !orders[n].Terminal()
    ensures orders[n].side == Buy ==> orders[n].reservedCash <= account.balances.reserved
    ensures orders[n].side == Sell ==>
      && orders[n].reservedQuantity <= Reserved(positions, orders[n].instrument)
      && IndexOf(positions, orders[n].instrument) < |positions|
  {
    var id := orders[n].instrument;
    TermWithinSum(orders, n, CashHeld());
    TermWithinSum(orders, n, SharesHeld(id));
    if IndexOf(positions, id) == |positions| {
      NoRowTotals(positions, id);
    }
  }

  lemma CloseOrder(orders: seq<Order>, n: nat, closed: Order)
    requires n < |orders| && closed.Terminal()
    ensures Sum(orders[n := closed], CashHeld()) == Sum(orders, CashHeld()) - CashHeld()(orders[n])
    ensures forall id ::
      Sum(orders[n := closed], SharesHeld(id)) == Sum(orders, SharesHeld(id)) - SharesHeld(id)(orders[n])
  {
    SumUpdate(orders, n, closed, CashHeld());
    forall id
      ensures Sum(orders[n := closed], SharesHeld(id)) == Sum(orders, SharesHeld(id)) - SharesHeld(id)(orders[n])
    {
      SumUpdate(orders, n, closed, SharesHeld(id));
    }
  }

  lemma AddOrder(orders: seq<Order>, o: Order)
    ensures Sum(orders + [o], CashHeld()) == Sum(orders, CashHeld()) + CashHeld()(o)
    ensures forall id :: Sum(orders + [o], SharesHeld(id)) == Sum(orders, SharesHeld(id)) + SharesHeld(id)(o)
  {
    SumAppend(orders, o, CashHeld());
    forall id
      ensures Sum(orders + [o], SharesHeld(id)) == Sum(orders, SharesHeld(id)) + SharesHeld(id)(o)
    {
      SumAppend(orders, o, SharesHeld(id));
    }
  }

  // ---------- Reserve ----------

  /** The rows after a sell reservation: its shares move from free to reserved, nothing else. */
  lemma ReserveRows(positions: seq<Position>, id: int, quantity: int, rows: seq<Position>)
    requires SoundRows(positions) && quantity > 0
    requires Occurrences(positions, id) > 0 && ReserveShares(positions, id, quantity) == Ok(rows)
    ensures SoundRows(rows)
    ensures forall i :: Held(rows, i) == Held(positions, i)
    ensures forall i :: Reserved(rows, i) == Reserved(positions, i) + if i == id then quantity else 0
  {
    OccurrencesOfRow(positions, id);
    var n := IndexOf(positions, id);
    ReserveOnRow(positions, n, quantity);
    RowUpdate(positions, n, rows[n]);
  }

  lemma ReserveKeepsBacking(account: Account, positions: seq<Position>, orders: seq<Order>, o: Order)
    requires Backed(account, positions, orders)
    requires ReserveOne(account, positions, o).Ok?
    ensures var m := ReserveOne(account, positions, o).value;
      && Backed(m.account, m.positions, orders + [o])
      && OnlyBalances(account, m.account)
      && (forall id :: Held(m.positions, id) == Held(positions, id))
  {
    var m := ReserveOne(account, positions, o).value;
    AddOrder(orders, o);
    if o.side == Sell {
      ReserveRows(positions, o.instrument, o.quantity, m.positions);
    }
  }

  /** A well-formed order is refused only for want of free cash, of free shares, or by overflow of the reserve. */
  lemma ReserveSucceeds(account: Account, positions: seq<Position>, o: Order)
    requires SoundBalances(account.balances) && SoundRows(positions)
    requires WellFormedReservation(account, o)
    requires o.side == Buy ==> o.reservedCash <= account.balances.available
                               && account.balances.reserved + o.reservedCash <= MAX_INT64
    requires o.side == Sell ==> o.quantity <= Held(positions, o.instrument) - Reserved(positions, o.instrument)
    ensures ReserveOne(account, positions, o).Ok?
  {
    if o.side == Sell {
      var n := IndexOf(positions, o.instrument);
      OccurrencesOfRow(positions, o.instrument);
      if n == |positions| {
        NoRowTotals(positions, o.instrument);
      } else {
        RowTotals(positions, n);
        ReserveOnRow(positions, n, o.quantity);
      }
    }
  }

  // ---------- Release ----------

  lemma ReleaseRows(positions: seq<Position>, id: int, quantity: int, rows: seq<Position>)
    requires SoundRows(positions) && quantity >= 0
    requires Occurrences(positions, id) > 0 && ReleaseShares(positions, id, quantity) == Ok(rows)
    ensures SoundRows(rows)
    ensures forall i :: Held(rows, i) == Held(positions, i)
    ensures forall i :: Reserved(rows, i) == Reserved(positions, i) - if i == id then quantity else 0
  {
    OccurrencesOfRow(positions, id);
    var n := IndexOf(positions, id);
    ReleaseOnRow(positions, n, quantity);
    RowUpdate(positions, n, rows[n]);
  }

  /** An open order can always be released, unless the refund overflows the available bucket. */
  lemma ReleaseSucceeds(account: Account, positions: seq<Position>, orders: seq<Order>, n: nat, why: Reason, now: int)
    requires Backed(account, positions, orders) && n < |orders| && !orders[n].Terminal()
    ensures var r := ReleaseOrder(account, positions, orders[n], why, now);
      r.Err? ==> r.error == NumericOverflow
    ensures account.balances.available + account.balances.reserved <= MAX_INT64
      ==> ReleaseOrder(account, positions, orders[n], why, now).Ok?
  {
    var o := orders[n];
    OpenOrderWithinReserved(account, positions, orders, n);
    if o.side == Sell {
      var k := IndexOf(positions, o.instrument);
      OccurrencesOfRow(positions, o.instrument);
      RowTotals(positions, k);
      ReleaseOnRow(positions, k, o.reservedQuantity);
    }
  }

  lemma ReleaseKeepsBacking(account: Account, positions: seq<Position>, orders: seq<Order>, n: nat, closed: Order,
                            why: Reason, now: int)
    requires Backed(account, positions, orders) && n < |orders| && !orders[n].Terminal() && closed.Terminal()
    requires ReleaseOrder(account, positions, orders[n], why, now).Ok?
    ensures var m := ReleaseOrder(account, positions, orders[n], why, now).value;
      && Backed(m.account, m.positions, orders[n := closed])
      && OnlyBalances(account, m.account)
      && (forall id :: Held(m.positions, id) == Held(positions, id))
  {
    var o := orders[n];
    var m := ReleaseOrder(account, positions, o, why, now).value;
    CloseOrder(orders, n, closed);
    if o.side == Sell {
      ReleaseRows(positions, o.instrument, o.reservedQuantity, m.positions);
    }
  }

  // ---------- Fill ----------

  /** A fill closes an order when it carries everything the order holds and no more shares than it holds. */
  predicate Closes(fill: Fill, o: Order) {
    && fill.orderId == o.id && fill.account == o.account && fill.instrument == o.instrument && fill.side == o.side
    && fill.reservedCash == o.reservedCash && fill.reservedQuantity == o.reservedQuantity
    && fill.effectiveAt == o.targetOpenAt
  }

  function FilledRow(p: Position, fill: Fill): Position
    requires FillEffect(p, fill).Ok?
  {
    FillEffect(p, fill).value.0
  }

  lemma FillRowIsSound(p: Position, fill: Fill)
    requires SoundRow(p) && fill.quantity > 0 && fill.gross >= 0 && fill.fee >= 0
    requires FillEffect(p, fill).Ok?
    requires fill.side == Buy ==> fill.reservedQuantity == 0
    requires fill.side == Sell ==> fill.reservedQuantity <= p.reservedQuantity
    ensures SoundRow(FilledRow(p, fill))
    ensures FilledRow(p, fill).instrument == p.instrument
    ensures FilledRow(p, fill).reservedQuantity == p.reservedQuantity - fill.reservedQuantity
    ensures FilledRow(p, fill).quantity == p.quantity + if fill.side == Buy then fill.quantity else -fill.quantity
  {
    if fill.side == Sell {
      ProportionalCostBounds(p.costBasis, fill.quantity, p.quantity);
    }
  }

  /** What an accepted fill does to the cash and to the shares. */
  ghost predicate FillOutcome(account: Account, positions: seq<Position>, fill: Fill, m: Mutation) {
    && SoundRows(m.positions)
    && SoundBalances(m.account.balances)
    && OnlyBalances(account, m.account)
    && m.account.balances.reserved == account.balances.reserved - (if fill.side == Buy then fill.reservedCash else 0)
    && (forall id :: Held(m.positions, id) == Held(positions, id) + SharesBought(fill, id))
    && (forall id :: Reserved(m.positions, id) == Reserved(positions, id)
          - if id == fill.instrument then fill.reservedQuantity else 0)
  }

  function SharesBought(fill: Fill, id: int): int {
    if id != fill.instrument then 0 else if fill.side == Buy then fill.quantity else -fill.quantity
  }

  lemma FillRows(account: Account, positions: seq<Position>, fill: Fill)
    requires SoundRows(positions)
    requires fill.side == Buy ==> fill.reservedQuantity == 0
    requires ApplyFill(account, positions, fill).Ok?
    ensures FillOutcome(account, positions, fill, ApplyFill(account, positions, fill).value)
  {
    var n := IndexOf(positions, fill.instrument);
    var rows := if n == |positions| then positions + [Position(fill.instrument, 0, 0, 0)] else positions;
    if n == |positions| {
      NewRow(positions, fill.instrument);
    }
    GrossIsNearestCent(fill.price, fill.quantity);
    FillRowIsSound(rows[n], fill);
    RowUpdate(rows, n, FilledRow(rows[n], fill));
    SortKeepsHoldings(rows[n := FilledRow(rows[n], fill)]);
  }

  lemma FillOutcomeKeepsBacking(account: Account, positions: seq<Position>, orders: seq<Order>, n: nat, closed: Order,
                                fill: Fill, m: Mutation)
    requires Backed(account, positions, orders) && n < |orders| && !orders[n].Terminal() && closed.Terminal()
    requires Closes(fill, orders[n]) && FillOutcome(account, positions, fill, m)
    ensures Backed(m.account, m.positions, orders[n := closed])
  {
    CloseOrder(orders, n, closed);
    forall id
      ensures Reserved(m.positions, id) == Sum(orders[n := closed], SharesHeld(id))
    {
      assert Reserved(positions, id) == Sum(orders, SharesHeld(id));
    }
  }

  lemma FillKeepsBacking(account: Account, positions: seq<Position>, orders: seq<Order>, n: nat, closed: Order,
                         fill: Fill)
    requires Backed(account, positions, orders) && n < |orders| && !orders[n].Terminal() && closed.Terminal()
    requires Closes(fill, orders[n])
    requires ApplyFill(account, positions, fill).Ok?
    ensures var m := ApplyFill(account, positions, fill).value;
      Backed(m.account, m.positions, orders[n := closed])
  {
    FillRows(account, positions, fill);
    FillOutcomeKeepsBacking(account, positions, orders, n, closed, fill, ApplyFill(account, positions, fill).value);
  }

  /** Everything a fill needs of the order and of its own price to be accepted. */
  predicate Acceptable(fill: Fill) {
    && fill.quantity > 0 && fill.price > 0 && fill.fee > 0
    && GrossValue(fill.price, fill.quantity) == Ok(fill.gross)
    && TradeFee(fill.gross) == Ok(fill.fee)
    && match fill.side
       case Buy => fill.gross + fill.fee <= fill.reservedCash
       case Sell => fill.quantity <= fill.reservedQuantity && fill.fee <= fill.gross
  }

  /** The row and the buckets can take an acceptable fill of what they reserve, short of overflow. */
  lemma FillEffectSucceeds(account: Account, p: Position, fill: Fill)
    requires SoundBalances(account.balances) && SoundRow(p) && Acceptable(fill)
    requires fill.side == Buy ==> fill.reservedCash <= account.balances.reserved
    requires fill.side == Sell ==> fill.reservedQuantity <= p.reservedQuantity
    ensures var r := FillEffect(p, fill);
      && (r.Err? ==> r.error == NumericOverflow)
      && (r.Ok? ==> var b := ApplyDelta(account.balances, r.value.1); b.Err? ==> b.error == NumericOverflow)
  {
    if fill.side == Sell {
      ProportionalCostBounds(p.costBasis, fill.quantity, p.quantity);
    }
  }

  /** An acceptable fill of an open order can only be refused by overflow. */
  lemma FillSucceeds(account: Account, positions: seq<Position>, orders: seq<Order>, n: nat, fill: Fill)
    requires Backed(account, positions, orders) && n < |orders| && !orders[n].Terminal()
    requires Closes(fill, orders[n]) && Acceptable(fill)
    ensures var r := ApplyFill(account, positions, fill);
      r.Err? ==> r.error == NumericOverflow
  {
    hide FillEffect;
    hide ApplyDelta;
    hide SortPositions;
    hide Sum;
    OpenOrderWithinReserved(account, positions, orders, n);
    OccurrencesOfRow(positions, fill.instrument);
    var k := IndexOf(positions, fill.instrument);
    if fill.side == Sell {
      RowTotals(positions, k);
    }
    FillEffectSucceeds(account, if k == |positions| then Position(fill.instrument, 0, 0, 0) else positions[k], fill);
  }

  // ---------- Settlement, dividends, splits: orders keep what they hold ----------

  lemma BalancesKeepBacking(account: Account, positions: seq<Position>, orders: seq<Order>, delta: Balances)
    requires Backed(account, positions, orders) && delta.reserved == 0
    requires ApplyDelta(account.balances, delta).Ok?
    ensures Backed(account.(balances := ApplyDelta(account.balances, delta).value), positions, orders)
  {
  }

  lemma WholeAndFraction(total: int, denominator: int)
    requires total >= 0 && denominator > 0
    ensures 0 <= total % denominator <= total
    ensures total / denominator >= 0
    ensures total / denominator == 0 ==> total % denominator == total
    ensures total == 0 ==> total % denominator == 0
  {
    var whole, fraction := total / denominator, total % denominator;
    assert total == whole * denominator + fraction;
    if whole < 0 {
      MulMonotone(denominator, whole, -1);
    } else {
      MulMonotone(denominator, 0, whole);
    }
  }

  /** The fraction of a share takes its part of the basis with it, and all of it when no share is left. */
  lemma SplitRowIsSound(p: Position, a: CorporateAction)
    requires SoundRow(p) && p.reservedQuantity == 0 && a.numerator > 0 && a.denominator > 0
    requires SplitRow(p, a).Ok?
    ensures var (row, cash) := SplitRow(p, a).value;
      SoundRow(row) && row.instrument == p.instrument && row.reservedQuantity == 0 && cash >= 0
  {
    var total := SplitTotal(p.quantity, a.numerator);
    if p.quantity > 0 {
      MulMonotone(a.numerator, 1, p.quantity);
    }
    assert p.quantity > 0 ==> total > 0;
    hide SplitTotal;
    WholeAndFraction(total, a.denominator);
    var whole, fraction := total / a.denominator, total % a.denominator;
    hide ShareOf;
    if total > 0 && fraction != 0 {
      ShareBounds(p.costBasis, fraction, total);
      ShareBounds(a.cashInLieu.value, fraction, a.denominator);
    }
  }

  lemma ActionRows(account: Account, positions: seq<Position>, a: CorporateAction, eligibility: seq<Position>)
    requires SoundRows(positions)
    requires ApplyCorporateAction(account, positions, a, eligibility).Ok?
    ensures var m := ApplyCorporateAction(account, positions, a, eligibility).value;
      && SoundRows(m.positions)
      && OnlyBalances(account, m.account)
      && |m.entries| == 1
      && m.entries[0].delta.reserved == 0 && m.entries[0].delta.unsettled == 0
      && m.entries[0].delta.available >= 0 && m.entries[0].delta.dividends >= 0
      && ApplyDelta(account.balances, m.entries[0].delta) == Ok(m.account.balances)
      && (forall id :: Held(m.positions, id) == Held(positions, id)
            + if id == a.instrument then m.entries[0].quantityDelta else 0)
      && (forall id :: Reserved(m.positions, id) == Reserved(positions, id))
      && (m.entries[0].quantityDelta != 0 ==> a.kind == Split && Reserved(positions, a.instrument) == 0)
  {
    var n := IndexOf(positions, a.instrument);
    if a.kind == Split && n < |positions| {
      SplitRowIsSound(positions[n], a);
      RowTotals(positions, n);
      RowUpdate(positions, n, SplitRow(positions[n], a).value.0);
    }
    if a.kind == Dividend {
      var q := EligibleQuantity(eligibility, a.instrument).value;
      if q > 0 {
        GrossIsNearestCent(a.amount, q);
      }
    }
  }

  lemma ActionKeepsBacking(account: Account, positions: seq<Position>, orders: seq<Order>, a: CorporateAction,
                           eligibility: seq<Position>)
    requires Backed(account, positions, orders)
    requires ApplyCorporateAction(account, positions, a, eligibility).Ok?
    ensures var m := ApplyCorporateAction(account, positions, a, eligibility).value;
      Backed(m.account, m.positions, orders)
  {
    ActionRows(account, positions, a, eligibility);
  }
}
