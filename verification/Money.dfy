// Fixed-point arithmetic: money in cents, prices in micro-dollars, quantities in whole shares.
// Every value fits a signed 64-bit integer; intermediate products are exact and only the result is range-checked.
module Money {
  import opened Outcomes

  const MAX_INT64: int := 0x7FFF_FFFF_FFFF_FFFF
  const MIN_INT64: int := -0x8000_0000_0000_0000
  const MAX_ORDER_QUANTITY: int := 1_000_000_000

  datatype Side = Buy | Sell

  predicate FitsInt64(n: int) {
    MIN_INT64 <= n <= MAX_INT64
  }

  function AddMoney(a: int, b: int): Result<int> {
    if FitsInt64(a + b) then Ok(a + b) else Err(NumericOverflow)
  }

  /** Value of `quantity` shares in cents before the range check, rounded half up. */
  function RoundedGross(price: int, quantity: int): int {
    (price * quantity + 5000) / 10000
  }

  function GrossValue(price: int, quantity: int): Result<int> {
    if price <= 0 || quantity <= 0 then Err(InvalidInput)
    else if FitsInt64(RoundedGross(price, quantity)) then Ok(RoundedGross(price, quantity))
    else Err(NumericOverflow)
  }

  /** One basis point of the gross value, rounded up, and never less than one cent. */
  function TradeFee(gross: int): Result<int> {
    if gross < 0 then Err(InvalidInput)
    else
      var fee := gross / 10000 + if gross % 10000 != 0 then 1 else 0;
      Ok(if fee < 1 then 1 else fee)
  }

  function PurchaseCost(price: int, quantity: int): Result<int> {
    var gross :- GrossValue(price, quantity);
    var fee :- TradeFee(gross);
    AddMoney(gross, fee)
  }

  function ScalePrice(price: int, numerator: int, denominator: int): Result<int> {
    if price <= 0 || numerator <= 0 || denominator <= 0 then Err(InvalidInput)
    else
      var n := (price * numerator + denominator / 2) / denominator;
      if FitsInt64(n) && n > 0 then Ok(n) else Err(NumericOverflow)
  }

  function SlippedPrice(open: int, side: Side): Result<int> {
    match side
    case Buy => ScalePrice(open, 10010, 10000)
    case Sell => ScalePrice(open, 9990, 10000)
  }

  function ReservationCost(close: int, quantity: int): Result<int> {
    var price :- SlippedPrice(close, Buy);
    PurchaseCost(price, quantity)
  }

  /** The turnover a pending buy stands for, recovered from the cash it holds. */
  function RecoveredTurnover(reservedCash: int): int {
    if reservedCash < 0 then -((-reservedCash * 10000) / 10001) else reservedCash * 10000 / 10001
  }

  /** Quotient of two non-negative integers rounded half up. */
  function HalfUp(numerator: int, denominator: int): int
    requires denominator > 0
  {
    var q, r := numerator / denominator, numerator % denominator;
    if 2 * r >= denominator then q + 1 else q
  }

  /** The share of an amount that a part is of a whole, in whole cents. */
  function ShareOf(amount: int, part: int, whole: int): int
    requires whole > 0
  {
    HalfUp(amount * part, whole)
  }

  function ProportionalCost(cost: int, quantity: int, total: int): Result<int> {
    if cost < 0 || quantity < 0 || total <= 0 || quantity > total then Err(InvalidInput)
    else
      var q := ShareOf(cost, quantity, total);
      if FitsInt64(q) then Ok(q) else Err(NumericOverflow)
  }

  // ---------- Rounding ----------

  /** Half-up rounding to cents: the result is within half a cent of the exact value, ties upwards. */
  lemma GrossIsNearestCent(price: int, quantity: int)
    requires GrossValue(price, quantity).Ok?
    ensures var g := GrossValue(price, quantity).value;
      g >= 0 && 10000 * g - 5000 <= price * quantity < 10000 * g + 5000
  {
    assert price * quantity >= 0;
  }

  lemma MulMonotone(p: int, a: int, b: int)
    requires p >= 0 && a <= b
    ensures p * a <= p * b
  {
    assert p * (b - a) >= 0;
  }

  lemma GrossMonotone(price: int, fewer: int, more: int)
    requires 0 < fewer <= more
    requires GrossValue(price, more).Ok?
    ensures GrossValue(price, fewer).Ok?
    ensures 0 <= GrossValue(price, fewer).value <= GrossValue(price, more).value
  {
    MulMonotone(price, fewer, more);
    assert price * fewer >= 0;
  }

  lemma FeeMonotone(less: int, more: int)
    requires 0 <= less <= more
    ensures TradeFee(less).Ok? && TradeFee(more).Ok?
    ensures 1 <= TradeFee(less).value <= TradeFee(more).value
  {
  }

  /** Cost is monotone through rounding, the fee floor and the overflow threshold. */
  lemma CostMonotone(price: int, fewer: int, more: int)
    requires 0 < fewer <= more
    requires PurchaseCost(price, more).Ok?
    ensures PurchaseCost(price, fewer).Ok?
    ensures 0 < PurchaseCost(price, fewer).value <= PurchaseCost(price, more).value
  {
    GrossMonotone(price, fewer, more);
    FeeMonotone(GrossValue(price, fewer).value, GrossValue(price, more).value);
  }

  /** Splitting a holding in two can lose at most one cent to rounding, and gains at most one. */
  lemma GrossOfSum(price: int, a: int, b: int)
    requires price > 0 && a >= 0 && b >= 0
    ensures RoundedGross(price, a) + RoundedGross(price, b) - 1 <= RoundedGross(price, a + b)
    ensures RoundedGross(price, a + b) <= RoundedGross(price, a) + RoundedGross(price, b) + 1
  {
    assert price * (a + b) == price * a + price * b;
  }

  /** What the value of a holding has beyond whole cents, in micro-dollars. */
  function Rest(price: int, quantity: int): int {
    (price * quantity) % 10000
  }

  /** Two parts each rounded down whose rests together round up. */
  predicate CarriesCent(price: int, a: int, b: int) {
    Rest(price, a) < 5000 && Rest(price, b) < 5000 && Rest(price, a) + Rest(price, b) >= 5000
  }

  lemma RoundingCarries(x: int, y: int)
    ensures (x + y + 5000) / 10000 == (x + 5000) / 10000 + (y + 5000) / 10000 + 1
       <==> x % 10000 < 5000 && y % 10000 < 5000 && x % 10000 + y % 10000 >= 5000
    ensures (x + y + 5000) / 10000 <= (x + 5000) / 10000 + (y + 5000) / 10000 + 1
  {
    var q, r := x / 10000, y / 10000;
    assert x == 10000 * q + x % 10000 && y == 10000 * r + y % 10000;
  }

  lemma Distributes(price: int, a: int, b: int)
    ensures price * (a + b) == price * a + price * b
  {
  }

  /** The whole is worth a cent more than its parts exactly when their rests carry. */
  lemma GrossOfSumCarries(price: int, a: int, b: int)
    ensures RoundedGross(price, a + b) == RoundedGross(price, a) + RoundedGross(price, b) + 1 <==>
      CarriesCent(price, a, b)
    ensures RoundedGross(price, a + b) <= RoundedGross(price, a) + RoundedGross(price, b) + 1
  {
    Distributes(price, a, b);
    RoundingCarries(price * a, price * b);
  }

  /** A holding rounded down that is not in whole cents. */
  predicate Prone(price: int, quantity: int) {
    0 < Rest(price, quantity) < 5000
  }

  /** A top-up of a holding can gain the cent only when the holding is rounded down and not in whole cents. */
  lemma OnlyProneCarry(price: int, a: int, b: int)
    requires CarriesCent(price, a, b)
    ensures Prone(price, a)
  {
  }

  lemma ShiftKeepsRest(x: int, y: int, k: int)
    requires x == y + 10000 * k
    ensures x % 10000 == y % 10000
  {
  }

  lemma SameRest(price: int, a: int, b: int)
    requires a % 10000 == b % 10000
    ensures Rest(price, a) == Rest(price, b)
  {
    var k := a / 10000 - b / 10000;
    assert a == b + 10000 * k;
    Distributes(price, b, 10000 * k);
    assert price * (10000 * k) == 10000 * (price * k);
    ShiftKeepsRest(price * a, price * b, price * k);
  }

  lemma RestOfSum(price: int, a: int, b: int)
    requires Rest(price, a) + Rest(price, b) < 10000
    ensures Rest(price, a + b) == Rest(price, a) + Rest(price, b)
  {
    Distributes(price, a, b);
  }

  /** Of the sizes up to a bound, one whose rest is the highest that still rounds down. */
  lemma {:induction false} HighestRest(price: int, bound: nat, known: int) returns (b: int)
    requires 0 < known <= bound && Rest(price, known) < 5000
    ensures 0 < b <= bound && Rest(price, b) < 5000
    ensures forall k :: 0 < k <= bound && Rest(price, k) < 5000 ==> Rest(price, k) <= Rest(price, b)
    decreases bound
  {
    hide Rest;
    b := known;
    for n := 0 to bound
      invariant 0 < b <= bound && Rest(price, b) < 5000
      invariant forall k :: 0 < k <= n && Rest(price, k) < 5000 ==> Rest(price, k) <= Rest(price, b)
    {
      if Rest(price, b) < Rest(price, n + 1) < 5000 {
        b := n + 1;
      }
    }
  }

  lemma WithinPeriod(n: int) returns (k: int)
    requires n > 0
    ensures 0 < k <= 10000 && k <= n && k % 10000 == n % 10000
  {
    k := if n % 10000 == 0 then 10000 else n % 10000;
  }

  /** A share more takes the value up when the rest is the highest that rounds down. */
  lemma NextShareCounts(price: int, b: int)
    requires price > 0 && Rest(price, b) < 5000 && Rest(price, b) + price >= 5000
    ensures RoundedGross(price, b) < RoundedGross(price, b + 1)
  {
    Distributes(price, b, 1);
    NextCents(price * b, price);
  }

  lemma NextCents(x: int, price: int)
    requires x % 10000 < 5000 && x % 10000 + price >= 5000
    ensures (x + 5000) / 10000 < (x + price + 5000) / 10000
  {
    assert x == 10000 * (x / 10000) + x % 10000;
  }

  lemma RestOfOne(price: int)
    requires 0 < price < 10000
    ensures Rest(price, 1) == price
  {
  }

  /** Every such holding has a top-up that gains the cent, by the last share its own value allows. */
  lemma ProneCarries(price: int, a: int) returns (b: int)
    requires price > 0 && a > 0 && Prone(price, a)
    ensures 0 < b <= 10000 && CarriesCent(price, a, b) && RoundedGross(price, b) < RoundedGross(price, b + 1)
  {
    var known := WithinPeriod(a);
    SameRest(price, a, known);
    assert Rest(price, a) >= 0;
    hide Rest;
    hide RoundedGross;
    b := HighestRest(price, 10000, known);
    if Rest(price, a) + Rest(price, b) < 5000 {
      RestOfSum(price, a, b);
      var k := WithinPeriod(a + b);
      SameRest(price, a + b, k);
    }
    if Rest(price, b) + price < 5000 {
      RestIsPositive(price, b);
      RestOfOne(price);
      RestOfSum(price, b, 1);
      var k := WithinPeriod(b + 1);
      SameRest(price, b + 1, k);
    }
    NextShareCounts(price, b);
  }

  lemma RestIsPositive(price: int, b: int)
    ensures Rest(price, b) >= 0
  {
  }

  /** With a price in whole cents there is no rounding and values add up exactly. */
  lemma GrossOfSumInWholeCents(price: int, a: int, b: int)
    requires price % 10000 == 0
    ensures RoundedGross(price, a + b) == RoundedGross(price, a) + RoundedGross(price, b)
  {
    var c := price / 10000;
    assert price == 10000 * c;
    assert price * a == 10000 * (c * a) && price * b == 10000 * (c * b);
    assert price * (a + b) == price * a + price * b;
  }

  /** The fee of a sale exceeds its proceeds only when the sale is worth nothing at all. */
  lemma FeeWithinGross(gross: int)
    requires gross >= 0
    ensures TradeFee(gross).Ok?
    ensures TradeFee(gross).value <= gross <==> gross > 0
  {
  }

  /** floor((g + fee(g)) * 10000 / 10001) gives g back for every non-negative gross value. */
  lemma FeeInversion(gross: int)
    requires gross >= 0
    ensures TradeFee(gross).Ok?
    ensures RecoveredTurnover(gross + TradeFee(gross).value) == gross
  {
    var fee := TradeFee(gross).value;
    assert gross <= 10000 * fee < gross + 10001;
    assert gross * 10001 <= (gross + fee) * 10000 < (gross + 1) * 10001;
  }

  /** The cash held by a pending buy determines its slipped gross value exactly. */
  lemma ReservationRevealsTurnover(close: int, quantity: int)
    requires ReservationCost(close, quantity).Ok?
    ensures SlippedPrice(close, Buy).Ok?
    ensures GrossValue(SlippedPrice(close, Buy).value, quantity)
         == Ok(RecoveredTurnover(ReservationCost(close, quantity).value))
  {
    var gross := GrossValue(SlippedPrice(close, Buy).value, quantity).value;
    GrossIsNearestCent(SlippedPrice(close, Buy).value, quantity);
    FeeInversion(gross);
  }

  lemma HalfUpBounds(numerator: int, denominator: int)
    requires numerator >= 0 && denominator > 0
    ensures var q := HalfUp(numerator, denominator);
      q >= 0 && 2 * numerator - denominator <= 2 * (q * denominator) <= 2 * numerator + denominator
  {
    var q, r := numerator / denominator, numerator % denominator;
    assert numerator == q * denominator + r;
    assert (q + 1) * denominator == q * denominator + denominator;
  }

  lemma HalfUpAtMost(numerator: int, denominator: int, bound: int)
    requires denominator > 0 && numerator <= bound * denominator
    ensures HalfUp(numerator, denominator) <= bound
  {
    var q, r := numerator / denominator, numerator % denominator;
    assert numerator == q * denominator + r;
    if q >= bound {
      MulMonotone(denominator, bound, q);
    }
  }

  /** A share of a cost never exceeds the cost, and the whole of it is taken with the last share. */
  lemma ProportionalCostBounds(cost: int, quantity: int, total: int)
    requires 0 <= cost <= MAX_INT64 && 0 <= quantity <= total && total > 0
    ensures var c := ProportionalCost(cost, quantity, total);
      c.Ok? && 0 <= c.value <= cost
      && 2 * (cost * quantity) - total <= 2 * (c.value * total) <= 2 * (cost * quantity) + total
      && (quantity == total ==> c.value == cost)
  {
    MulMonotone(cost, 0, quantity);
    MulMonotone(cost, quantity, total);
    HalfUpBounds(cost * quantity, total);
    HalfUpAtMost(cost * quantity, total, cost);
    if quantity == total {
      assert (cost * total) % total == 0 && (cost * total) / total == cost by { ExactDivision(cost, total); }
    }
  }

  lemma ExactDivision(q: int, d: int)
    requires d > 0
    ensures (q * d) / d == q && (q * d) % d == 0
  {
    var x := q * d;
    var y := x / d;
    assert x == y * d + x % d;
    if y < q {
      MulMonotone(d, y + 1, q);
    } else if y > q {
      MulMonotone(d, q + 1, y);
    }
  }

  /** A part of an amount, rounded half up: never more than the amount, and all of it for the whole. */
  lemma ShareBounds(amount: int, part: int, whole: int)
    requires amount >= 0 && 0 <= part <= whole && whole > 0
    ensures 0 <= ShareOf(amount, part, whole) <= amount
    ensures part == whole ==> ShareOf(amount, part, whole) == amount
  {
    MulMonotone(amount, 0, part);
    MulMonotone(amount, part, whole);
    HalfUpBounds(amount * part, whole);
    HalfUpAtMost(amount * part, whole, amount);
    if part == whole {
      ExactDivision(amount, whole);
    }
  }
}
