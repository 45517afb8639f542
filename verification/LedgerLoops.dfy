/** The ledger operations as the engine runs them: rows changed in place in loops, buckets threaded through a batch. */
module LedgerLoops {
  import opened Outcomes
  import opened Money
  import opened Domain
  import opened Calendars
  import L = Ledger

  // ---------- Finding a row ----------

  /** `index` is the only row of an instrument among the first `n`, or -1 when there is none. */
  predicate OnlyRow(positions: seq<Position>, n: nat, id: int, index: int) {
    && n <= |positions| && -1 <= index < n
    && (index >= 0 ==> positions[index].instrument == id)
    && forall k :: 0 <= k < n && k != index ==> positions[k].instrument != id
  }

  lemma {:induction false} CountedRows(positions: seq<Position>, id: int, index: int)
    requires OnlyRow(positions, |positions|, id, index)
    ensures Occurrences(positions, id) == if index >= 0 then 1 else 0
    ensures IndexOf(positions, id) == if index >= 0 then index else |positions|
  {
    if positions != [] {
      var tail := positions[1..];
      CountedRows(tail, id, if index > 0 then index - 1 else -1);
    }
  }

  lemma {:induction false} TwoRows(positions: seq<Position>, id: int, i: nat, j: nat)
    requires i < j < |positions| && positions[i].instrument == id && positions[j].instrument == id
    ensures Occurrences(positions, id) > 1
  {
    if i == 0 {
      OneRow(positions[1..], id, j - 1);
    } else {
      TwoRows(positions[1..], id, i - 1, j - 1);
    }
  }

  lemma {:induction false} OneRow(positions: seq<Position>, id: int, i: nat)
    requires i < |positions| && positions[i].instrument == id
    ensures Occurrences(positions, id) > 0
  {
    if i > 0 {
      OneRow(positions[1..], id, i - 1);
    }
  }

  // ---------- Fills ----------

  /** Changes the row of the fill in place, adding one for a name bought for the first time, and sorts the rows. */
  method ApplyFill(account: Account, positions: seq<Position>, fill: Fill) returns (r: Result<Mutation>)
    ensures r == L.ApplyFill(account, positions, fill)
  {
    if fill.account != account.id || fill.quantity <= 0 || fill.price <= 0 || fill.fee <= 0
       || fill.reservedCash < 0 || fill.reservedQuantity < 0
    {
      return Err(InvalidInput);
    }
    var gross := GrossValue(fill.price, fill.quantity);
    if gross.Err? {
      return Err(gross.error);
    }
    var fee := TradeFee(gross.value);
    if fee.Err? || gross.value != fill.gross || fee.value != fill.fee {
      return Err(InvalidInput);
    }
    var rows, index := positions, -1;
    for n := 0 to |rows|
      invariant OnlyRow(positions, n, fill.instrument, index)
    {
      if rows[n].instrument == fill.instrument {
        if index >= 0 {
          TwoRows(positions, fill.instrument, index, n);
          return Err(InvalidInput);
        }
        index := n;
      }
    }
    CountedRows(positions, fill.instrument, index);
    if index < 0 {
      if fill.side == Sell {
        return Err(InsufficientCash);
      }
      index := |rows|;
      rows := rows + [Position(fill.instrument, 0, 0, 0)];
    }
    var effect := FillRow(rows[index], fill);
    if effect.Err? {
      return Err(effect.error);
    }
    var (row, delta) := effect.value;
    rows := rows[index := row];
    var balances := ApplyDelta(account.balances, delta);
    if balances.Err? {
      return Err(balances.error);
    }
    var entry := L.FillEntry(account, fill, delta);
    r := Ok(Mutation(account.(balances := balances.value), SortPositions(rows), [entry]));
  }

  /** The row itself, field by field. */
  method FillRow(row: Position, fill: Fill) returns (r: Result<(Position, Balances)>)
    ensures r == L.FillEffect(row, fill)
  {
    var p, delta := row, NO_CASH;
    if fill.side == Buy {
      var cost := AddMoney(fill.gross, fill.fee);
      if cost.Err? {
        return Err(cost.error);
      }
      if cost.value > fill.reservedCash {
        return Err(InsufficientCash);
      }
      delta := Balances(fill.reservedCash - cost.value, -fill.reservedCash, 0, 0);
      var quantity := AddMoney(p.quantity, fill.quantity);
      if quantity.Err? {
        return Err(quantity.error);
      }
      p := p.(quantity := quantity.value);
      var basis := AddMoney(p.costBasis, cost.value);
      if basis.Err? {
        return Err(basis.error);
      }
      p := p.(costBasis := basis.value);
    } else {
      if p.quantity < fill.quantity || p.reservedQuantity < fill.reservedQuantity
         || fill.reservedQuantity < fill.quantity || fill.gross < fill.fee
      {
        return Err(InsufficientCash);
      }
      var cost := ProportionalCost(p.costBasis, fill.quantity, p.quantity);
      if cost.Err? {
        return Err(cost.error);
      }
      p := p.(costBasis := p.costBasis - cost.value);
      p := p.(quantity := p.quantity - fill.quantity);
      p := p.(reservedQuantity := p.reservedQuantity - fill.reservedQuantity);
      delta := delta.(unsettled := fill.gross - fill.fee);
    }
    r := Ok((p, delta));
  }

  // ---------- Releases ----------

  /** Gives the shares of an order back on every row of its name. */
  method ReleaseRows(positions: seq<Position>, id: int, quantity: int) returns (r: Result<seq<Position>>)
    ensures r == if Occurrences(positions, id) == 0 then Err(InvalidInput) else L.ReleaseShares(positions, id, quantity)
  {
    var rows, found := positions, false;
    for n := 0 to |positions|
      invariant |rows| == |positions| && rows[n..] == positions[n..]
      invariant rows[..n] == L.MoveShares(positions[..n], id, -quantity)
      invariant found <==> exists k :: 0 <= k < n && positions[k].instrument == id
      invariant forall k :: 0 <= k < n && positions[k].instrument == id ==> positions[k].reservedQuantity >= quantity
    {
      var p := rows[n];
      assert p == rows[n..][0] == positions[n];
      if p.instrument == id {
        if p.reservedQuantity < quantity {
          OneRow(positions, id, n);
          return Err(InvalidInput);
        }
        rows := rows[n := p.(reservedQuantity := p.reservedQuantity - quantity)];
        found := true;
      }
      assert L.MoveShares(positions[..n + 1], id, -quantity) == L.MoveShares(positions[..n], id, -quantity) + [rows[n]];
    }
    assert positions[..|positions|] == positions && rows[..|rows|] == rows;
    if !found {
      CountedRows(positions, id, -1);
      return Err(InvalidInput);
    }
    FoundRow(positions, id);
    r := Ok(rows);
  }

  /** Gives an order's reserve back: its cash to the available bucket, or its shares to the rows of its name. */
  method ReleaseOrder(account: Account, positions: seq<Position>, o: Order, why: Reason, now: int)
    returns (r: Result<Mutation>)
    ensures r == L.ReleaseOrder(account, positions, o, why, now)
  {
    hide L.ReleaseShares;
    hide ApplyDelta;
    if o.account != account.id || o.Terminal() || o.reservedCash < 0 || o.reservedQuantity < 0 {
      return Err(InvalidInput);
    }
    var rows, delta := positions, NO_CASH;
    if o.side == Buy {
      delta := Balances(o.reservedCash, -o.reservedCash, 0, 0);
    } else {
      var released := ReleaseRows(positions, o.instrument, o.reservedQuantity);
      if released.Err? {
        return Err(released.error);
      }
      rows := released.value;
    }
    var balances := ApplyDelta(account.balances, delta);
    if balances.Err? {
      return Err(balances.error);
    }
    r := Ok(Mutation(account.(balances := balances.value), rows, [L.ReleaseEntry(account, o, Released(why), now)]));
  }

  lemma FoundRow(positions: seq<Position>, id: int)
    requires exists k :: 0 <= k < |positions| && positions[k].instrument == id
    ensures Occurrences(positions, id) > 0
  {
    var k :| 0 <= k < |positions| && positions[k].instrument == id;
    OneRow(positions, id, k);
  }

  // ---------- Reservations ----------

  /** Sets aside the shares of one order on every row of its name. */
  method ReserveRows(positions: seq<Position>, id: int, quantity: int) returns (r: Result<seq<Position>>)
    ensures r == if Occurrences(positions, id) == 0 then Err(InsufficientCash)
      else L.ReserveShares(positions, id, quantity)
  {
    var rows, found := positions, false;
    for n := 0 to |positions|
      invariant |rows| == |positions| && rows[n..] == positions[n..]
      invariant rows[..n] == L.MoveShares(positions[..n], id, quantity)
      invariant found <==> exists k :: 0 <= k < n && positions[k].instrument == id
      invariant forall k :: 0 <= k < n && positions[k].instrument == id ==>
        positions[k].quantity - positions[k].reservedQuantity >= quantity
    {
      var p := rows[n];
      assert p == rows[n..][0] == positions[n];
      if p.instrument == id {
        if p.quantity - p.reservedQuantity < quantity {
          return Err(InsufficientCash);
        }
        rows := rows[n := p.(reservedQuantity := p.reservedQuantity + quantity)];
        found := true;
      }
      assert L.MoveShares(positions[..n + 1], id, quantity) == L.MoveShares(positions[..n], id, quantity) + [rows[n]];
    }
    assert positions[..|positions|] == positions && rows[..|rows|] == rows;
    if !found {
      CountedRows(positions, id, -1);
      return Err(InsufficientCash);
    }
    FoundRow(positions, id);
    r := Ok(rows);
  }

  method ReserveOne(account: Account, positions: seq<Position>, o: Order) returns (r: Result<Mutation>)
    ensures r == L.ReserveOne(account, positions, o)
  {
    if !L.WellFormedReservation(account, o) {
      return Err(InvalidInput);
    }
    var rows, delta := positions, NO_CASH;
    if o.side == Buy {
      delta := Balances(-o.reservedCash, o.reservedCash, 0, 0);
    } else {
      var moved := ReserveRows(rows, o.instrument, o.quantity);
      if moved.Err? {
        return Err(moved.error);
      }
      rows := moved.value;
    }
    var balances := ApplyDelta(account.balances, delta);
    if balances.Err? {
      return Err(balances.error);
    }
    r := Ok(Mutation(account.(balances := balances.value), rows, [L.ReserveEntry(account, o)]));
  }

  /** Reserves a batch in order, remembering the orders it has seen. */
  method ReserveOrders(account: Account, positions: seq<Position>, orders: seq<Order>) returns (r: Result<Mutation>)
    ensures r == L.ReserveOrders(account, positions, orders)
  {
    hide L.ReserveOne;
    var a, rows, entries := account, positions, [];
    var seen: set<OrderId> := {};
    for n := 0 to |orders|
      invariant L.ReserveOrders(account, positions, orders[..n]) == Ok(Mutation(a, rows, entries))
      invariant forall id :: id in seen <==> exists k :: 0 <= k < n && orders[k].id == id
    {
      var o := orders[n];
      assert orders[..n + 1][..n] == orders[..n];
      if o.id in seen {
        RefusedBatch(account, positions, orders, n + 1);
        return Err(InvalidInput);
      }
      seen := seen + {o.id};
      var one := ReserveOne(a, rows, o);
      if one.Err? {
        RefusedBatch(account, positions, orders, n + 1);
        return Err(one.error);
      }
      a, rows, entries := one.value.account, one.value.positions, entries + one.value.entries;
    }
    assert orders[..|orders|] == orders;
    r := Ok(Mutation(a, rows, entries));
  }

  /** A batch is refused as soon as a prefix of it is, for the same reason. */
  lemma {:induction false} RefusedBatch(account: Account, positions: seq<Position>, orders: seq<Order>, n: nat)
    requires n <= |orders| && L.ReserveOrders(account, positions, orders[..n]).Err?
    ensures L.ReserveOrders(account, positions, orders) == L.ReserveOrders(account, positions, orders[..n])
  {
    if n < |orders| {
      assert orders[..|orders| - 1][..n] == orders[..n];
      RefusedBatch(account, positions, orders[..|orders| - 1], n);
    } else {
      assert orders[..n] == orders;
    }
  }

  // ---------- Settlement ----------

  lemma {:induction false} RefusedSettlement(account: Account, entries: seq<LedgerEntry>, calendar: Calendar, now: int,
                                             n: nat)
    requires n <= |entries| && L.SettleReceivables(account, entries[..n], calendar, now).Err?
    ensures L.SettleReceivables(account, entries, calendar, now)
         == L.SettleReceivables(account, entries[..n], calendar, now)
  {
    if n < |entries| {
      assert entries[..|entries| - 1][..n] == entries[..n];
      RefusedSettlement(account, entries[..|entries| - 1], calendar, now, n);
    } else {
      assert entries[..n] == entries;
    }
  }

  /** Threads the buckets through the sales, remembering their numbers. */
  method SettleReceivables(account: Account, entries: seq<LedgerEntry>, calendar: Calendar, now: int)
    returns (r: Result<CashMutation>)
    ensures r == L.SettleReceivables(account, entries, calendar, now)
  {
    hide SettlementStart;
    var a, settled := account, [];
    var seen: set<EventKey> := {};
    for n := 0 to |entries|
      invariant L.SettleReceivables(account, entries[..n], calendar, now) == Ok(CashMutation(a, settled))
      invariant forall k :: k in seen <==> exists i :: 0 <= i < n && entries[i].key == k
    {
      var e := entries[n];
      assert entries[..n + 1][..n] == entries[..n];
      if !L.Receivable(account, e) || e.key in seen {
        RefusedSettlement(account, entries, calendar, now, n + 1);
        return Err(InvalidInput);
      }
      seen := seen + {e.key};
      var due := SettlementStart(calendar, e.effectiveAt);
      if due.Err? {
        RefusedSettlement(account, entries, calendar, now, n + 1);
        return Err(due.error);
      }
      if now >= due.value {
        var entry := L.SettlementEntry(account, e, due.value, now);
        var balances := ApplyDelta(a.balances, entry.delta);
        if balances.Err? {
          RefusedSettlement(account, entries, calendar, now, n + 1);
          return Err(balances.error);
        }
        a := a.(balances := balances.value);
        settled := settled + [entry];
      }
    }
    assert entries[..|entries|] == entries;
    r := Ok(CashMutation(a, settled));
  }

  // ---------- Corporate actions ----------

  /** Splits the one row of the instrument in place. */
  method SplitRows(positions: seq<Position>, a: CorporateAction) returns (r: Result<(seq<Position>, int, int)>)
    requires a.numerator > 0 && a.denominator > 0
    ensures r == L.ApplySplit(positions, a)
  {
    hide L.SplitRow;
    var rows, index, change, cash := positions, -1, 0, 0;
    for n := 0 to |positions|
      invariant OnlyRow(positions, n, a.instrument, index)
      invariant index == -1 ==> rows == positions && change == 0 && cash == 0
      invariant index >= 0 ==> L.Splittable(positions[index]) && L.SplitRow(positions[index], a).Ok?
      invariant index >= 0 ==>
        var (row, lieu) := L.SplitRow(positions[index], a).value;
        rows == positions[index := row] && change == row.quantity - positions[index].quantity && cash == lieu
    {
      var p := positions[n];
      if p.instrument == a.instrument {
        if index >= 0 {
          FirstRow(positions, a.instrument, index);
          TwoRows(positions, a.instrument, index, n);
          return Err(InvalidInput);
        }
        FirstRow(positions, a.instrument, n);
        if p.reservedQuantity != 0 || p.quantity < 0 || p.costBasis < 0 {
          return Err(InvalidInput);
        }
        index := n;
        var split := L.SplitRow(p, a);
        if split.Err? {
          return Err(split.error);
        }
        rows := rows[n := split.value.0];
        cash := split.value.1;
        change := rows[n].quantity - p.quantity;
      }
    }
    CountedRows(positions, a.instrument, index);
    r := Ok((rows, change, cash));
  }

  lemma {:induction false} FirstRow(positions: seq<Position>, id: int, n: nat)
    requires n < |positions| && positions[n].instrument == id
    requires forall k :: 0 <= k < n ==> positions[k].instrument != id
    ensures IndexOf(positions, id) == n
  {
    if n > 0 {
      FirstRow(positions[1..], id, n - 1);
    }
  }

  method EligibleQuantity(eligibility: seq<Position>, id: int) returns (r: Result<int>)
    ensures r == L.EligibleQuantity(eligibility, id)
  {
    var quantity := 0;
    for n := 0 to |eligibility|
      invariant L.EligibleQuantity(eligibility[..n], id) == Ok(quantity)
    {
      var p := eligibility[n];
      assert eligibility[..n + 1][..n] == eligibility[..n];
      if p.instrument == id {
        if p.quantity < 0 {
          RefusedEligibility(eligibility, id, n + 1);
          return Err(InvalidInput);
        }
        var sum := AddMoney(quantity, p.quantity);
        if sum.Err? {
          RefusedEligibility(eligibility, id, n + 1);
          return Err(sum.error);
        }
        quantity := sum.value;
      }
    }
    assert eligibility[..|eligibility|] == eligibility;
    r := Ok(quantity);
  }

  lemma {:induction false} RefusedEligibility(eligibility: seq<Position>, id: int, n: nat)
    requires n <= |eligibility| && L.EligibleQuantity(eligibility[..n], id).Err?
    ensures L.EligibleQuantity(eligibility, id) == L.EligibleQuantity(eligibility[..n], id)
  {
    if n < |eligibility| {
      assert eligibility[..|eligibility| - 1][..n] == eligibility[..n];
      RefusedEligibility(eligibility[..|eligibility| - 1], id, n);
    } else {
      assert eligibility[..n] == eligibility;
    }
  }

  method ApplyCorporateAction(account: Account, positions: seq<Position>, a: CorporateAction,
                              eligibility: seq<Position>)
    returns (r: Result<Mutation>)
    ensures r == L.ApplyCorporateAction(account, positions, a, eligibility)
  {
    hide L.ApplySplit;
    hide L.EligibleQuantity;
    hide ApplyDelta;
    if !a.inDollars || a.effectiveAt == 0 {
      return Err(ActionIncomplete);
    }
    var rows, entry := positions, L.ActionEntry(account, a, OtherAction, NO_CASH, 0);
    match a.kind {
      case Split =>
        if a.numerator <= 0 || a.denominator <= 0 {
          return Err(ActionIncomplete);
        }
        var split := SplitRows(positions, a);
        if split.Err? {
          return Err(split.error);
        }
        rows := split.value.0;
        entry := entry.(kind := SplitAdjustment, delta := Balances(split.value.2, 0, 0, 0),
                        quantityDelta := split.value.1);
      case Dividend =>
        if a.amount <= 0 || a.payAt == 0 || a.payAt < a.effectiveAt {
          return Err(ActionIncomplete);
        }
        entry := entry.(kind := DividendAccrual);
        var quantity := EligibleQuantity(eligibility, a.instrument);
        if quantity.Err? {
          return Err(quantity.error);
        }
        if quantity.value > 0 {
          var amount := GrossValue(a.amount, quantity.value);
          if amount.Err? {
            return Err(amount.error);
          }
          entry := entry.(delta := Balances(0, 0, 0, amount.value));
        }
      case UnsupportedAction =>
        return Err(ActionIncomplete);
    }
    var balances := ApplyDelta(account.balances, entry.delta);
    if balances.Err? {
      return Err(balances.error);
    }
    r := Ok(Mutation(account.(balances := balances.value), rows, [entry]));
  }
}
