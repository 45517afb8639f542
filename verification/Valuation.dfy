/** Net asset value depends on the shares held of each name, not on the rows they are listed in or their order. */
module Valuation {
  import opened Outcomes
  import opened Money
  import opened Domain
  import opened Sums
  import opened Holdings
  import opened Snapshots
  import opened Risk

  predicate PricedRow(p: Position, prices: map<int, int>) {
    && p.quantity >= 0
    && (p.quantity > 0 ==> p.instrument in prices && GrossValue(prices[p.instrument], p.quantity).Ok?)
  }

  predicate Priced(rows: seq<Position>, prices: map<int, int>) {
    forall n :: 0 <= n < |rows| ==> PricedRow(rows[n], prices)
  }

  lemma PricedValue(p: Position, prices: map<int, int>)
    requires PricedRow(p, prices)
    ensures ValueAt(prices, p) >= 0
    ensures p.quantity > 0 ==> GrossValue(prices[p.instrument], p.quantity) == Ok(ValueAt(prices, p))
  {
    if p.quantity > 0 {
      GrossIsNearestCent(prices[p.instrument], p.quantity);
    }
  }

  /** Adding the holdings to a total succeeds exactly when each has a price and a value and the whole fits, and then
      it adds their value. */
  lemma {:induction false} AddHoldingsIsSum(total: int, rows: seq<Position>, prices: map<int, int>)
    requires FitsInt64(total)
    ensures AddHoldings(total, rows, prices).Ok?
       <==> Priced(rows, prices) && total + Sum(rows, StockValue(prices)) <= MAX_INT64
    ensures AddHoldings(total, rows, prices).Ok? ==>
      AddHoldings(total, rows, prices).value == total + Sum(rows, StockValue(prices))
    ensures Priced(rows, prices) ==> Sum(rows, StockValue(prices)) >= 0
  {
    if rows != [] {
      var init, last := rows[..|rows| - 1], rows[|rows| - 1];
      AddHoldingsIsSum(total, init, prices);
      assert Priced(rows, prices) <==> Priced(init, prices) && PricedRow(last, prices);
      if PricedRow(last, prices) {
        PricedValue(last, prices);
      }
      hide Priced;
      hide RoundedGross;
    }
  }

  lemma ZeroedRow(rows: seq<Position>, n: nat)
    requires Distinct(rows) && n < |rows|
    ensures var zeroed := rows[n := rows[n].(quantity := 0)];
      && Distinct(zeroed)
      && forall id :: Held(zeroed, id) == Held(rows, id) - if id == rows[n].instrument then rows[n].quantity else 0
  {
    var zeroed := rows[n := rows[n].(quantity := 0)];
    forall id
      ensures Held(zeroed, id) == Held(rows, id) - if id == rows[n].instrument then rows[n].quantity else 0
    {
      SumUpdate(rows, n, zeroed[n], SharesOf(id));
    }
  }

  lemma NoneHeld(rows: seq<Position>, prices: map<int, int>)
    requires Distinct(rows) && forall id :: Held(rows, id) == 0
    ensures Priced(rows, prices) && Sum(rows, StockValue(prices)) == 0
  {
    forall n | 0 <= n < |rows|
      ensures rows[n].quantity == 0
    {
      RowTotals(rows, n);
      assert Held(rows, rows[n].instrument) == 0;
    }
    forall p | p in rows
      ensures StockValue(prices)(p) == 0
    {
      var n :| 0 <= n < |rows| && rows[n] == p;
    }
    SumIsZero(rows, StockValue(prices));
  }

  /** The row of a name elsewhere, when it is held, and the rest of the holdings without it. */
  lemma MatchingRow(rows: seq<Position>, id: int, quantity: int) returns (n: nat)
    requires Distinct(rows) && Held(rows, id) == quantity != 0
    ensures n < |rows| && rows[n].instrument == id && rows[n].quantity == quantity
  {
    n := IndexOf(rows, id);
    if n == |rows| {
      NoRowTotals(rows, id);
    }
    RowTotals(rows, n);
  }

  lemma HeldWithoutLast(rows: seq<Position>)
    requires rows != []
    ensures forall id :: Held(rows[..|rows| - 1], id) == Held(rows, id) - SharesOf(id)(rows[|rows| - 1])
  {
  }

  lemma {:induction false} HoldingsDetermineValue(xs: seq<Position>, ys: seq<Position>, prices: map<int, int>)
    requires Distinct(xs) && Distinct(ys) && forall id :: Held(xs, id) == Held(ys, id)
    requires Priced(xs, prices)
    ensures Priced(ys, prices)
    ensures Sum(ys, StockValue(prices)) == Sum(xs, StockValue(prices))
    decreases |xs|
  {
    if xs == [] {
      NoneHeld(ys, prices);
    } else {
      var init, p := xs[..|xs| - 1], xs[|xs| - 1];
      RowTotals(xs, |xs| - 1);
      HeldWithoutLast(xs);
      assert PricedRow(p, prices);
      assert Priced(init, prices);
      if p.quantity == 0 {
        HoldingsDetermineValue(init, ys, prices);
      } else {
        var n := MatchingRow(ys, p.instrument, p.quantity);
        ZeroedRow(ys, n);
        var rest := ys[n := ys[n].(quantity := 0)];
        WithoutMatch(xs, ys, rest, n);
        HoldingsDetermineValue(init, rest, prices);
        SumUpdate(ys, n, rest[n], StockValue(prices));
        RestIsPriced(ys, n, prices);
      }
    }
  }

  lemma WithoutMatch(xs: seq<Position>, ys: seq<Position>, rest: seq<Position>, n: nat)
    requires xs != [] && n < |ys| && forall id :: Held(xs, id) == Held(ys, id)
    requires ys[n].instrument == xs[|xs| - 1].instrument && ys[n].quantity == xs[|xs| - 1].quantity
    requires forall id :: Held(rest, id) == Held(ys, id) - if id == ys[n].instrument then ys[n].quantity else 0
    ensures forall id :: Held(xs[..|xs| - 1], id) == Held(rest, id)
  {
    HeldWithoutLast(xs);
    hide Held;
  }

  lemma RestIsPriced(rows: seq<Position>, n: nat, prices: map<int, int>)
    requires n < |rows| && PricedRow(rows[n], prices)
    requires Priced(rows[n := rows[n].(quantity := 0)], prices)
    ensures Priced(rows, prices)
  {
    var rest := rows[n := rows[n].(quantity := 0)];
    forall k | 0 <= k < |rows|
      ensures PricedRow(rows[k], prices)
    {
      assert PricedRow(rest[k], prices);
    }
  }

  /** Two lists with the same shares of every name have the same net asset value. */
  lemma NavDependsOnHoldings(account: Account, xs: seq<Position>, ys: seq<Position>, s: Snapshot,
                             overrides: map<int, int>)
    requires Distinct(xs) && Distinct(ys) && forall id :: Held(xs, id) == Held(ys, id)
    requires ComputeNAV(account, xs, s, overrides).Ok?
    ensures ComputeNAV(account, ys, s, overrides) == ComputeNAV(account, xs, s, overrides)
  {
    var cash, prices := TotalCash(account.balances).value, Quotes(s, overrides).value;
    AddHoldingsIsSum(cash, xs, prices);
    AddHoldingsIsSum(cash, ys, prices);
    HoldingsDetermineValue(xs, ys, prices);
    hide Quotes;
    hide Sum;
    hide Priced;
  }
}
