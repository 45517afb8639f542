/** Next-open execution: the volume capacity of an order and the fill it gets at the opening price. */
module Execution {
  import opened Outcomes
  import opened Money
  import opened Sizing
  import opened Domain
  import opened Calendars
  import opened Lists
  import opened Sums
  import opened Ledger
  import opened Reservations
  import opened Snapshots
  import opened Risk
  import opened Rebalance

  // ---------- Volume capacity ----------

  const VOLUME_SESSIONS: nat := 20
  const VOLUME_SHARE: int := 2000

  function CompletedBefore(before: int): Bar -> bool {
    (b: Bar) => b.availableAt < before && b.sessionDate < DateOf(before)
  }

  function ByDate(): (Bar, Bar) -> bool {
    (a: Bar, b: Bar) => a.sessionDate < b.sessionDate
  }

  function DateKey(): Bar -> int {
    (b: Bar) => b.sessionDate
  }

  function Volume(): Bar -> int {
    (b: Bar) => b.volume
  }

  function CompletedBars(bars: seq<Bar>, before: int): seq<Bar> {
    Sort(Filter(bars, CompletedBefore(before)), ByDate())
  }

  predicate CleanVolumes(bars: seq<Bar>) {
    && (forall k :: 0 <= k < |bars| ==> bars[k].volume >= 0)
    && (forall i, j :: 0 <= i < j < |bars| ==> bars[i].sessionDate != bars[j].sessionDate)
  }

  function PreviousVolumeCapacity(bars: seq<Bar>, before: int): Result<int> {
    var all := CompletedBars(bars, before);
    if |all| < VOLUME_SESSIONS then Err(DataStale)
    else
      var recent := all[|all| - VOLUME_SESSIONS..];
      if !CleanVolumes(recent) then Err(InvalidInput)
      else if !FitsInt64(Sum(recent, Volume()) / VOLUME_SHARE) then Err(NumericOverflow)
      else Ok(Sum(recent, Volume()) / VOLUME_SHARE)
  }

  /** The capacity is one part in two thousand of the volume of the twenty latest distinct sessions completed before
      the opening; no other completed bar is later than any of them. */
  lemma CapacityFromLatestSessions(bars: seq<Bar>, before: int) returns (older: seq<Bar>, recent: seq<Bar>)
    requires PreviousVolumeCapacity(bars, before).Ok?
    ensures multiset(older + recent) == multiset(Filter(bars, CompletedBefore(before)))
    ensures |recent| == VOLUME_SESSIONS && CleanVolumes(recent)
    ensures forall i, j :: 0 <= i < |older| && 0 <= j < |recent| ==> older[i].sessionDate <= recent[j].sessionDate
    ensures var capacity := PreviousVolumeCapacity(bars, before).value;
      capacity >= 0 && VOLUME_SHARE * capacity <= Sum(recent, Volume()) < VOLUME_SHARE * (capacity + 1)
  {
    var all := CompletedBars(bars, before);
    SortPermutes(Filter(bars, CompletedBefore(before)), ByDate());
    SortAscends(Filter(bars, CompletedBefore(before)), ByDate(), DateKey());
    older, recent := all[..|all| - VOLUME_SESSIONS], all[|all| - VOLUME_SESSIONS..];
    assert older + recent == all;
    forall i, j | 0 <= i < |older| && 0 <= j < |recent|
      ensures older[i].sessionDate <= recent[j].sessionDate
    {
      assert DateKey()(all[i]) <= DateKey()(all[|older| + j]);
    }
    forall b | b in recent
      ensures Volume()(b) >= 0
    {
    }
    SumNonNegative(recent, Volume());
  }

  lemma CapacityIsNonNegative(bars: seq<Bar>, before: int)
    requires PreviousVolumeCapacity(bars, before).Ok?
    ensures PreviousVolumeCapacity(bars, before).value >= 0
  {
    var _, _ := CapacityFromLatestSessions(bars, before);
  }

  // ---------- Matching ----------

  datatype MatchInput = MatchInput(
    order: Order, openPrice: int, availableCapacity: int, portfolio: PortfolioInput, recordedAt: int)

  datatype FillResult = FillResult(fill: Option<Fill>, cancelledQuantity: int, reason: Reason)

  predicate Matchable(o: Order, capacity: int, recordedAt: int) {
    && o.state == AwaitingBar && recordedAt >= o.targetOpenAt && o.quantity > 0 && o.capacity >= 0 && capacity >= 0
    && o.reservedCash >= 0 && o.reservedQuantity >= 0
  }

  function WithOrder(orders: seq<Order>, o: Order): seq<Order> {
    if exists n :: 0 <= n < |orders| && orders[n].id == o.id then orders else orders + [o]
  }

  function MatchRequest(input: MatchInput, o: Order, price: int): RiskInput {
    var p := input.portfolio;
    RiskInput(p.account, p.positions, WithOrder(p.orders, o), p.snapshot, Evaluation(false, []), o.instrument, o.side,
              o.reason, Some(o.id), o.quantity, price, p.nav, p.peakNav, p.policy, p.sessionTurnover, false,
              Some(o.reservedCash), p.prices, p.parameters, o.targetOpenAt)
  }

  function Least(a: int, b: int): int {
    if a > b then b else a
  }

  function MatchedQuantity(o: Order, risk: RiskDecision, capacity: int): int {
    var quantity := Least(Least(Least(o.quantity, risk.maxQuantity), o.capacity), capacity);
    if o.side == Sell then Least(quantity, o.reservedQuantity) else quantity
  }

  function FillAt(input: MatchInput, o: Order, price: int, quantity: int): Result<FillResult> {
    var gross :- GrossValue(price, quantity);
    var fee :- TradeFee(gross);
    if o.side == Sell && gross < fee then Ok(FillResult(None, o.quantity, GrossBelowFee))
    else
      var settlesAt :- if o.side == Sell then SettlementStart(input.portfolio.snapshot.calendar, o.targetOpenAt)
                       else Ok(0);
      var fill := Fill(o.id, o.account, o.instrument, o.side, o.reason, quantity, price, gross, fee, o.reservedCash,
                       o.reservedQuantity, o.targetOpenAt, input.recordedAt, settlesAt);
      Ok(FillResult(Some(fill), o.quantity - quantity, if o.quantity > quantity then RemainderCancelled else NoReason))
  }

  function MatchAtOpen(input: MatchInput): Result<FillResult> {
    var o := AdvanceOrder(input.order, input.recordedAt);
    if !Matchable(o, input.availableCapacity, input.recordedAt) then Err(InvalidInput)
    else
      var price :- SlippedPrice(input.openPrice, o.side);
      var risk :- ValidateOrder(MatchRequest(input, o, price));
      var quantity := MatchedQuantity(o, risk, input.availableCapacity);
      if quantity <= 0 then
        Ok(FillResult(None, o.quantity, if risk.reason == NoReason then CapacityExhausted else risk.reason))
      else FillAt(input, o, price, quantity)
  }

  lemma MatchedBuyIsAffordable(input: MatchInput, o: Order, price: int, quantity: int)
    requires o.side == Buy
    requires var risk := ValidateOrder(MatchRequest(input, o, price));
      risk.Ok? && 0 < quantity <= risk.value.maxQuantity
    ensures CostAtMost(price, quantity, o.reservedCash)
  {
    var request := MatchRequest(input, o, price);
    match OrderSizing(request).value
    case Refused(_) =>
    case Sized(limit, test, _) =>
      UpToMaximumFits(limit, test, quantity);
  }

  /** Any fill the matcher returns is one the ledger accepts for that order, within every capacity. */
  lemma MatchedFillIsAcceptable(input: MatchInput)
    requires MatchAtOpen(input).Ok? && MatchAtOpen(input).value.fill.Some?
    ensures var o, fill := input.order, MatchAtOpen(input).value.fill.value;
      && Acceptable(fill) && Closes(fill, o)
      && fill.quantity <= o.capacity && fill.quantity <= input.availableCapacity && fill.quantity <= o.quantity
      && MatchAtOpen(input).value.cancelledQuantity == o.quantity - fill.quantity
      && fill.recordedAt == input.recordedAt && input.recordedAt >= o.targetOpenAt
      && fill.gross >= 0
  {
    hide ValidateOrder;
    hide ScalePrice;
    var o := AdvanceOrder(input.order, input.recordedAt);
    var price := SlippedPrice(input.openPrice, o.side).value;
    var risk := ValidateOrder(MatchRequest(input, o, price)).value;
    var quantity := MatchedQuantity(o, risk, input.availableCapacity);
    GrossIsNearestCent(price, quantity);
    if o.side == Buy {
      MatchedBuyIsAffordable(input, o, price, quantity);
    }
  }

  /** Match then fill: for any open order of a sound book, a fill the matcher returns can only be refused by overflow,
      and once accepted it closes the order and keeps the meaning of the reserves. */
  lemma MatchThenFill(account: Account, positions: seq<Position>, orders: seq<Order>, n: nat, input: MatchInput,
                      closed: Order)
    requires Backed(account, positions, orders) && n < |orders| && !orders[n].Terminal() && closed.Terminal()
    requires input.order == orders[n]
    requires MatchAtOpen(input).Ok? && MatchAtOpen(input).value.fill.Some?
    ensures var r := ApplyFill(account, positions, MatchAtOpen(input).value.fill.value);
      && (r.Err? ==> r.error == NumericOverflow)
      && (r.Ok? ==> Backed(r.value.account, r.value.positions, orders[n := closed]))
  {
    MatchedFillIsAcceptable(input);
    var fill := MatchAtOpen(input).value.fill.value;
    hide MatchAtOpen;
    hide ApplyFill;
    FillSucceeds(account, positions, orders, n, fill);
    if ApplyFill(account, positions, fill).Ok? {
      FillKeepsBacking(account, positions, orders, n, closed, fill);
    }
  }
}
