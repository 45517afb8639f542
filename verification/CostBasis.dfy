/** Cost basis under partial sells: rounding never accumulates beyond half a cent a sell. */
module CostBasis {
  import opened Outcomes
  import opened Money
  import opened Domain
  import opened Ledger
  import opened Holdings

  /** Shares left after some sells. */
  function SharesLeft(quantity: int, sells: seq<int>): int {
    if sells == [] then quantity else SharesLeft(quantity, sells[..|sells| - 1]) - sells[|sells| - 1]
  }

  /** Each sell is of some of the shares left by the sells before it. */
  predicate Sellable(quantity: int, sells: seq<int>) {
    if sells == [] then quantity > 0
    else
      var init, last := sells[..|sells| - 1], sells[|sells| - 1];
      Sellable(quantity, init) && SharesLeft(quantity, init) > 0 && 0 < last <= SharesLeft(quantity, init)
  }

  /** The basis left, each sell taking its rounded share of the basis before it. */
  function BasisLeft(basis: int, quantity: int, sells: seq<int>): int
    requires Sellable(quantity, sells)
  {
    if sells == [] then basis
    else
      var init, last := sells[..|sells| - 1], sells[|sells| - 1];
      var before := BasisLeft(basis, quantity, init);
      var cost := ProportionalCost(before, last, SharesLeft(quantity, init));
      if cost.Ok? then before - cost.value else before
  }

  function Distance(a: int, b: int): nat {
    if a < b then b - a else a - b
  }

  /** One sell: the basis left is within half a cent of its share by quantity. */
  lemma OneSell(before: int, sold: int, left: int)
    requires 0 <= before <= MAX_INT64 && 0 < sold <= left
    ensures var cost := ProportionalCost(before, sold, left);
      && cost.Ok? && 0 <= before - cost.value <= before
      && (sold == left ==> before - cost.value == 0)
      && 2 * Distance((before - cost.value) * left, before * (left - sold)) <= left
  {
    ProportionalCostBounds(before, sold, left);
    var c := ProportionalCost(before, sold, left).value;
    assert (before - c) * left == before * left - c * left;
    assert before * (left - sold) == before * left - before * sold;
  }

  lemma ScaledDistance(a: int, b: int, k: int)
    requires k >= 0
    ensures Distance(k * a, k * b) == k * Distance(a, b)
  {
    if a < b {
      MulMonotone(k, a, b);
      assert k * (b - a) == k * b - k * a;
    } else {
      MulMonotone(k, b, a);
      assert k * (a - b) == k * a - k * b;
    }
  }

  lemma ScaleUp(a: int, b: int, k: int, bound: int)
    requires k >= 0 && 2 * Distance(a, b) <= bound
    ensures 2 * Distance(k * a, k * b) <= k * bound
  {
    ScaledDistance(a, b, k);
    MulMonotone(k, 2 * Distance(a, b), bound);
  }

  lemma ScaleDown(a: int, b: int, k: int, bound: int)
    requires k > 0 && 2 * Distance(k * a, k * b) <= k * bound
    ensures 2 * Distance(a, b) <= bound
  {
    ScaledDistance(a, b, k);
    var d := 2 * Distance(a, b);
    assert k * d <= k * bound;
    assert k * (bound + 1) == k * bound + k;
    if d > bound {
      MulMonotone(k, bound + 1, d);
    }
  }

  lemma Triangle(a: int, b: int, c: int, first: int, second: int)
    requires 2 * Distance(a, b) <= first && 2 * Distance(b, c) <= second
    ensures 2 * Distance(a, c) <= first + second
  {
  }

  lemma Regroup(a: int, b: int, c: int)
    ensures a * (b * c) == c * (b * a)
  {
  }

  lemma Widen(quantity: int, left: int, rest: int, n: int)
    requires quantity >= 0 && 0 <= rest <= left && n >= 0
    ensures quantity * left + rest * (n * quantity) <= left * ((n + 1) * quantity)
  {
    assert n * quantity >= 0;
    MulMonotone(n * quantity, rest, left);
    assert left * ((n + 1) * quantity) == left * (n * quantity) + left * quantity;
  }

  /** Errors add up: after one more sell the distance from the pro-rata basis grows by half a cent at most. */
  lemma ErrorsAdd(basis: int, quantity: int, before: int, left: int, after: int, rest: int, n: int)
    requires quantity > 0 && left > 0 && 0 <= rest <= left && n >= 0
    requires 2 * Distance(before * quantity, basis * left) <= n * quantity
    requires 2 * Distance(after * left, before * rest) <= left
    ensures 2 * Distance(after * quantity, basis * rest) <= (n + 1) * quantity
  {
    ScaleUp(after * left, before * rest, quantity, left);
    ScaleUp(before * quantity, basis * left, rest, n * quantity);
    Regroup(quantity, before, rest);
    Regroup(quantity, after, left);
    Regroup(rest, basis, left);
    Combined(quantity * (after * left), rest * (before * quantity), rest * (basis * left), after * quantity,
             basis * rest, quantity, left, rest, n);
  }

  lemma Combined(x: int, y: int, z: int, a: int, b: int, quantity: int, left: int, rest: int, n: int)
    requires quantity > 0 && left > 0 && 0 <= rest <= left && n >= 0
    requires 2 * Distance(x, y) <= quantity * left && 2 * Distance(y, z) <= rest * (n * quantity)
    requires x == left * a && z == left * b
    ensures 2 * Distance(a, b) <= (n + 1) * quantity
  {
    Triangle(x, y, z, quantity * left, rest * (n * quantity));
    Widen(quantity, left, rest, n);
    ScaleDown(a, b, left, (n + 1) * quantity);
  }

  lemma {:induction false} SellableIsPositive(quantity: int, sells: seq<int>)
    requires Sellable(quantity, sells)
    ensures quantity > 0
  {
    if sells != [] {
      SellableIsPositive(quantity, sells[..|sells| - 1]);
    }
  }

  /** After n partial sells the basis left is within n / 2 cents of the exact share of the basis by quantity; it is
      never negative, and nothing is left of it when no share is left. */
  lemma {:induction false} BasisStaysProRata(basis: int, quantity: int, sells: seq<int>)
    requires 0 <= basis <= MAX_INT64 && Sellable(quantity, sells)
    ensures var left := BasisLeft(basis, quantity, sells);
      && 0 <= left <= basis && SharesLeft(quantity, sells) >= 0
      && (sells != [] && SharesLeft(quantity, sells) == 0 ==> left == 0)
      && 2 * Distance(left * quantity, basis * SharesLeft(quantity, sells)) <= |sells| * quantity
  {
    if sells != [] {
      var init, last := sells[..|sells| - 1], sells[|sells| - 1];
      BasisStaysProRata(basis, quantity, init);
      var before, shares := BasisLeft(basis, quantity, init), SharesLeft(quantity, init);
      OneSell(before, last, shares);
      hide Distance;
      hide ProportionalCost;
      SellableIsPositive(quantity, init);
      ErrorsAdd(basis, quantity, before, shares, BasisLeft(basis, quantity, sells), shares - last, |init|);
    }
  }

  /** Selling the whole of a row takes out every cent of its basis. */
  lemma LiquidationTakesAll(p: Position, fill: Fill)
    requires SoundRow(p) && fill.side == Sell && fill.quantity == p.quantity > 0 && FillEffect(p, fill).Ok?
    ensures FillEffect(p, fill).value.0.quantity == 0 && FillEffect(p, fill).value.0.costBasis == 0
  {
    ProportionalCostBounds(p.costBasis, fill.quantity, p.quantity);
  }

  // ---------- The ledger's own rows ----------

  /** A row after some fills, in order. */
  function RowAfter(p: Position, fills: seq<Fill>): Result<Position> {
    if fills == [] then Ok(p)
    else
      var before :- RowAfter(p, fills[..|fills| - 1]);
      var effect :- FillEffect(before, fills[|fills| - 1]);
      Ok(effect.0)
  }

  function Sizes(fills: seq<Fill>): seq<int> {
    seq(|fills|, n requires 0 <= n < |fills| => fills[n].quantity)
  }

  /** Sell fills taken one by one by the ledger leave the basis computed above. */
  lemma {:induction false} RowFollowsBasis(p: Position, fills: seq<Fill>)
    requires SoundRow(p) && p.quantity > 0 && RowAfter(p, fills).Ok?
    requires forall n :: 0 <= n < |fills| ==> fills[n].side == Sell && fills[n].quantity > 0
    ensures Sellable(p.quantity, Sizes(fills))
    ensures RowAfter(p, fills).value.quantity == SharesLeft(p.quantity, Sizes(fills))
    ensures RowAfter(p, fills).value.costBasis == BasisLeft(p.costBasis, p.quantity, Sizes(fills))
  {
    if fills != [] {
      var init, last := fills[..|fills| - 1], fills[|fills| - 1];
      RowFollowsBasis(p, init);
      assert Sizes(fills)[..|fills| - 1] == Sizes(init);
      assert Sizes(fills)[|fills| - 1] == last.quantity;
    }
  }

  /** So after n sells of a row the basis is within n / 2 cents of its exact share by quantity. */
  lemma SellsStayProRata(p: Position, fills: seq<Fill>)
    requires SoundRow(p) && p.quantity > 0 && RowAfter(p, fills).Ok?
    requires forall n :: 0 <= n < |fills| ==> fills[n].side == Sell && fills[n].quantity > 0
    ensures var row := RowAfter(p, fills).value;
      && 0 <= row.costBasis <= p.costBasis
      && (fills != [] && row.quantity == 0 ==> row.costBasis == 0)
      && 2 * Distance(row.costBasis * p.quantity, p.costBasis * row.quantity) <= |fills| * p.quantity
  {
    RowFollowsBasis(p, fills);
    BasisStaysProRata(p.costBasis, p.quantity, Sizes(fills));
    hide Distance;
    hide RowAfter;
    hide BasisLeft;
  }
}
