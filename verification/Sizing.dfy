/** Largest quantity that meets a limit: the binary search used everywhere an order is sized. */
module Sizing {
  import opened Outcomes
  import opened Money

  /** The tests an order size is searched against, one per closure of the engine. */
  datatype SizeTest =
    | Unlimited
    | GrossWithin(price: int, cap: int)
    | BuyWithin(price: int, single: int, sector: int, stocks: int, turnover: int, cash: int)

  predicate GrossAtMost(price: int, quantity: int, cap: int) {
    var gross := GrossValue(price, quantity);
    gross.Ok? && gross.value <= cap
  }

  predicate CostAtMost(price: int, quantity: int, cash: int) {
    var cost := PurchaseCost(price, quantity);
    cost.Ok? && cost.value <= cash
  }

  predicate Fits(test: SizeTest, quantity: int) {
    match test
    case Unlimited => true
    case GrossWithin(price, cap) => GrossAtMost(price, quantity, cap)
    case BuyWithin(price, single, sector, stocks, turnover, cash) =>
      && GrossAtMost(price, quantity, single)
      && GrossAtMost(price, quantity, sector)
      && GrossAtMost(price, quantity, stocks)
      && GrossAtMost(price, quantity, turnover)
      && CostAtMost(price, quantity, cash)
  }

  function Search(test: SizeTest, low: int, high: int): int
    decreases high - low
  {
    if low < high then
      var mid := low + (high - low + 1) / 2;
      if Fits(test, mid) then Search(test, mid, high) else Search(test, low, mid - 1)
    else low
  }

  function MaxWholeQuantity(limit: int, test: SizeTest): int {
    Search(test, 0, limit)
  }

  method FindMaxWholeQuantity(limit: int, test: SizeTest) returns (quantity: int)
    requires limit >= 0
    ensures quantity == MaxWholeQuantity(limit, test)
    ensures IsLargest(test, limit, quantity)
  {
    var low, high := 0, limit;
    while low < high
      invariant 0 <= low <= high <= limit
      invariant Search(test, low, high) == MaxWholeQuantity(limit, test)
    {
      var mid := low + (high - low + 1) / 2;
      if Fits(test, mid) {
        low := mid;
      } else {
        high := mid - 1;
      }
    }
    SizingIsOptimal(limit, test);
    quantity := low;
  }

  /** The simple form: try every size from the limit downwards. */
  function LinearScan(limit: int, test: SizeTest): int
    decreases limit
  {
    if limit <= 0 then 0
    else if Fits(test, limit) then limit
    else LinearScan(limit - 1, test)
  }

  /** `quantity` meets the test unless it is zero, and nothing larger in the range does. */
  ghost predicate IsLargest(test: SizeTest, limit: int, quantity: int) {
    && 0 <= quantity <= limit
    && (quantity > 0 ==> Fits(test, quantity))
    && forall q :: quantity < q <= limit ==> !Fits(test, q)
  }

  /** Every limit the engine tests is downward closed: a smaller positive size also fits. */
  lemma SmallerFits(test: SizeTest, fewer: int, more: int)
    requires 0 < fewer <= more
    requires Fits(test, more)
    ensures Fits(test, fewer)
  {
    match test
    case Unlimited =>
    case GrossWithin(price, _) =>
      GrossMonotone(price, fewer, more);
    case BuyWithin(price, _, _, _, _, _) =>
      GrossMonotone(price, fewer, more);
      CostMonotone(price, fewer, more);
  }

  lemma {:induction false} SearchIsLargest(test: SizeTest, limit: int, low: int, high: int)
    requires 0 <= low <= high <= limit
    requires low > 0 ==> Fits(test, low)
    requires forall q :: high < q <= limit ==> !Fits(test, q)
    ensures IsLargest(test, limit, Search(test, low, high))
    decreases high - low
  {
    if low < high {
      var mid := low + (high - low + 1) / 2;
      if Fits(test, mid) {
        SearchIsLargest(test, limit, mid, high);
      } else {
        forall q | mid - 1 < q <= limit
          ensures !Fits(test, q)
        {
          if Fits(test, q) {
            SmallerFits(test, mid, q);
          }
        }
        SearchIsLargest(test, limit, low, mid - 1);
      }
    }
  }

  /** The size found is exactly the largest in 0..limit that meets the test. */
  lemma SizingIsOptimal(limit: int, test: SizeTest)
    requires limit >= 0
    ensures IsLargest(test, limit, MaxWholeQuantity(limit, test))
  {
    SearchIsLargest(test, limit, 0, limit);
  }

  lemma {:induction false} LinearScanIsLargest(limit: int, test: SizeTest)
    requires limit >= 0
    ensures IsLargest(test, limit, LinearScan(limit, test))
  {
    if limit > 0 && !Fits(test, limit) {
      LinearScanIsLargest(limit - 1, test);
    }
  }

  /** The binary search refines the linear scan. */
  lemma SearchRefinesScan(limit: int, test: SizeTest)
    requires limit >= 0
    ensures MaxWholeQuantity(limit, test) == LinearScan(limit, test)
  {
    SizingIsOptimal(limit, test);
    LinearScanIsLargest(limit, test);
  }

  /** Every size up to the one found fits: a caller may shrink an order freely. */
  lemma UpToMaximumFits(limit: int, test: SizeTest, quantity: int)
    requires 0 < quantity <= MaxWholeQuantity(limit, test) && limit >= 0
    ensures Fits(test, quantity)
    ensures quantity <= limit
  {
    SizingIsOptimal(limit, test);
    SmallerFits(test, quantity, MaxWholeQuantity(limit, test));
  }

  // ---------- Sizing a buy to the cash left ----------

  function CashSearch(close: int, low: int, high: int, cash: int): Result<int>
    decreases high - low
  {
    if low < high then
      var mid := low + (high - low + 1) / 2;
      var cost :- ReservationCost(close, mid);
      if cost <= cash then CashSearch(close, mid, high, cash) else CashSearch(close, low, mid - 1, cash)
    else Ok(low)
  }

  /** Unlike the other searches this one gives up with the error of the first cost it cannot compute. */
  function SizeToCash(close: int, quantity: int, cash: int): Result<int> {
    CashSearch(close, 0, quantity, cash)
  }

  method FindSizeToCash(close: int, quantity: int, cash: int) returns (size: Result<int>)
    ensures size == SizeToCash(close, quantity, cash)
  {
    var low, high := 0, quantity;
    while low < high
      invariant CashSearch(close, low, high, cash) == SizeToCash(close, quantity, cash)
    {
      var mid := low + (high - low + 1) / 2;
      var cost := ReservationCost(close, mid);
      if cost.Err? {
        return Err(cost.error);
      }
      if cost.value <= cash {
        low := mid;
      } else {
        high := mid - 1;
      }
    }
    size := Ok(low);
  }

  predicate Reservable(close: int, quantity: int, cash: int) {
    var cost := ReservationCost(close, quantity);
    cost.Ok? && cost.value <= cash
  }

  lemma SmallerReservable(close: int, fewer: int, more: int, cash: int)
    requires 0 < fewer <= more
    requires Reservable(close, more, cash)
    ensures Reservable(close, fewer, cash)
  {
    CostMonotone(SlippedPrice(close, Buy).value, fewer, more);
  }

  lemma {:induction false} CashSearchIsLargest(close: int, low: int, high: int, cash: int, limit: int)
    requires 0 <= low <= high <= limit
    requires low > 0 ==> Reservable(close, low, cash)
    requires forall q :: high < q <= limit ==> !Reservable(close, q, cash)
    requires CashSearch(close, low, high, cash).Ok?
    ensures var size := CashSearch(close, low, high, cash).value;
      && 0 <= size <= limit
      && (size > 0 ==> Reservable(close, size, cash))
      && forall q :: size < q <= limit ==> !Reservable(close, q, cash)
    decreases high - low
  {
    if low < high {
      var mid := low + (high - low + 1) / 2;
      if Reservable(close, mid, cash) {
        CashSearchIsLargest(close, mid, high, cash, limit);
      } else {
        forall q | mid - 1 < q <= limit
          ensures !Reservable(close, q, cash)
        {
          if Reservable(close, q, cash) {
            SmallerReservable(close, mid, q, cash);
          }
        }
        CashSearchIsLargest(close, low, mid - 1, cash, limit);
      }
    }
  }

  /** A size that is found is the largest whose slipped cost, fee included, the remaining cash covers. */
  lemma CashSizingIsOptimal(close: int, quantity: int, cash: int)
    requires quantity >= 0 && SizeToCash(close, quantity, cash).Ok?
    ensures var size := SizeToCash(close, quantity, cash).value;
      && 0 <= size <= quantity
      && (size > 0 ==> Reservable(close, size, cash))
      && forall q :: size < q <= quantity ==> !Reservable(close, q, cash)
  {
    CashSearchIsLargest(close, 0, quantity, cash, quantity);
  }
}
