/** The elementary events of a book: what each of them records and what it leaves alone. */
module BookEvents {
  import opened Outcomes
  import opened Money
  import opened Domain
  import opened Sums
  import opened Holdings
  import opened Ledger
  import opened Reservations
  import opened Replay

  datatype Bucket = AvailableCash | ReservedCash | UnsettledCash | DividendCash

  function Amount(b: Balances, k: Bucket): int {
    match k
    case AvailableCash => b.available
    case ReservedCash => b.reserved
    case UnsettledCash => b.unsettled
    case DividendCash => b.dividends
  }

  function In(k: Bucket): LedgerEntry -> int {
    (e: LedgerEntry) => Amount(e.delta, k)
  }

  function SharesIn(id: int): LedgerEntry -> int {
    (e: LedgerEntry) => if e.instrument == id then e.quantityDelta else 0
  }

  ghost predicate BackedBook(b: Book) {
    && Backed(b.account, b.positions, b.orders)
    && b.account.id == REPLAY_ACCOUNT
  }

  /** One entry is recorded: the buckets move by its delta and the shares of its instrument by its quantity. */
  ghost predicate Posts(before: Book, after: Book, e: LedgerEntry) {
    && after.ledger == before.ledger + [e]
    && OnlyBalances(before.account, after.account)
    && ApplyDelta(before.account.balances, e.delta) == Ok(after.account.balances)
    && (forall id :: Held(after.positions, id) == Held(before.positions, id) + SharesIn(id)(e))
  }

  /** What only fills and corporate actions change. */
  predicate SameRecords(before: Book, after: Book) {
    && after.fills == before.fills && after.applied == before.applied && after.paid == before.paid
    && after.settled == before.settled && after.peak == before.peak
  }

  /** The same order but for its state. */
  predicate SameTerms(o: Order, p: Order) {
    p == o.(state := p.state)
  }

  // ---------- Reservation ----------

  lemma SingleReservation(account: Account, positions: seq<Position>, o: Order)
    ensures ReserveOrders(account, positions, [o]) == ReserveOne(account, positions, o)
  {
    assert [o][..0] == [];
    assert ReserveOrders(account, positions, [o][..0]) == Ok(Mutation(account, positions, []));
    var r := ReserveOne(account, positions, o);
    if r.Ok? {
      assert [] + r.value.entries == r.value.entries;
    }
  }

  lemma IssuePosts(b: Book, o: Order)
    requires BackedBook(b) && Issue(b, o).Ok?
    ensures var after := Issue(b, o).value;
      && BackedBook(after) && SameRecords(b, after)
      && after.orders == b.orders + [o]
      && WellFormedReservation(b.account, o)
      && Posts(b, after, ReserveEntry(b.account, o))
  {
    SingleReservation(b.account, b.positions, o);
    ReserveKeepsBacking(b.account, b.positions, b.orders, o);
  }

  // ---------- Release ----------

  lemma ReleasePosts(b: Book, n: nat, why: Reason, state: OrderState, now: int)
    requires BackedBook(b) && n < |b.orders| && !b.orders[n].Terminal()
    requires state != Pending && state != AwaitingBar
    requires CloseUnfilled(b, n, why, state, now).Ok?
    ensures var after := CloseUnfilled(b, n, why, state, now).value;
      && BackedBook(after) && SameRecords(b, after)
      && after.orders == b.orders[n := b.orders[n].(state := state)]
      && Posts(b, after, ReleaseEntry(b.account, b.orders[n], Released(why), now))
  {
    ReleaseKeepsBacking(b.account, b.positions, b.orders, n, b.orders[n].(state := state), why, now);
  }

  // ---------- Fill ----------

  lemma FillPosts(b: Book, n: nat, fill: Fill, partial: bool)
    requires BackedBook(b) && n < |b.orders| && !b.orders[n].Terminal() && Closes(fill, b.orders[n])
    requires CloseFilled(b, n, fill, partial).Ok?
    ensures var after := CloseFilled(b, n, fill, partial).value;
      && BackedBook(after)
      && after.fills == b.fills + [fill] && SameRecords(b, after.(fills := b.fills))
      && after.orders == b.orders[n := b.orders[n].(state := if partial then PartiallyFilled else Filled)]
      && |after.ledger| > 0
      && var e := after.ledger[|after.ledger| - 1];
        && Posts(b, after, e)
        && e.key == FillKey(fill.orderId) && e.instrument == fill.instrument && e.effectiveAt == fill.effectiveAt
        && e.kind == (if fill.side == Buy then BuyFill else SellFill)
        && e.delta == (if fill.side == Buy
                       then Balances(fill.reservedCash - fill.gross - fill.fee, -fill.reservedCash, 0, 0)
                       else Balances(0, 0, fill.gross - fill.fee, 0))
        && e.quantityDelta == SharesBought(fill, fill.instrument)
        && fill.quantity > 0 && (fill.side == Sell ==> fill.fee <= fill.gross && fill.quantity <= fill.reservedQuantity)
        && (fill.side == Buy ==> fill.gross + fill.fee <= fill.reservedCash)
  {
    FillRows(b.account, b.positions, fill);
    FillKeepsBacking(b.account, b.positions, b.orders, n,
                     b.orders[n].(state := if partial then PartiallyFilled else Filled), fill);
    var m := ApplyFill(b.account, b.positions, fill).value;
    hide Sum;
    hide GrossValue;
    hide ProportionalCost;
    hide Backed;
    assert m.entries[0] == (b.ledger + m.entries)[|b.ledger|];
  }

  // ---------- Corporate actions ----------

  lemma ActionPosts(b: Book, a: CorporateAction)
    requires BackedBook(b) && ApplyAction(b, a).Ok?
    ensures var after := ApplyAction(b, a).value;
      && BackedBook(after)
      && after.applied == b.applied[a.id := a] && SameRecords(b, after.(applied := b.applied))
      && after.orders == b.orders
      && |after.ledger| > 0
      && var e := after.ledger[|after.ledger| - 1];
        && Posts(b, after, e)
        && e.key == ActionKey(a.id) && e.instrument == a.instrument && e.effectiveAt == a.effectiveAt
        && e.account == b.account.id
        && e.kind == (if a.kind == Split then SplitAdjustment else DividendAccrual)
        && e.delta.reserved == 0 && e.delta.unsettled == 0 && e.delta.available >= 0 && e.delta.dividends >= 0
        && (e.quantityDelta != 0 ==> Sum(b.orders, SharesHeld(a.instrument)) == 0)
        && (a.kind == Dividend ==> a.payAt >= a.effectiveAt)
        && (a.kind == Split || a.kind == Dividend)
  {
    ActionRows(b.account, b.positions, a, Eligibility(b.ledger, a));
    ActionKeepsBacking(b.account, b.positions, b.orders, a, Eligibility(b.ledger, a));
    var m := ApplyCorporateAction(b.account, b.positions, a, Eligibility(b.ledger, a)).value;
    hide Sum;
    hide ApplySplit;
    hide EligibleQuantity;
    assert m.entries[0] == (b.ledger + m.entries)[|b.ledger|];
    assert Reserved(b.positions, a.instrument) == Sum(b.orders, SharesHeld(a.instrument));
  }

  // ---------- Dividend payment ----------

  lemma {:induction false} FirstWithKeyIsThere(ledger: seq<LedgerEntry>, key: EventKey) returns (i: nat)
    requires FirstWithKey(ledger, key).Some?
    ensures i < |ledger| && ledger[i] == FirstWithKey(ledger, key).value && ledger[i].key == key
  {
    if ledger[0].key == key {
      i := 0;
    } else {
      var j := FirstWithKeyIsThere(ledger[1..], key);
      i := j + 1;
    }
  }

  lemma PaymentPosts(b: Book, a: CorporateAction, now: int) returns (i: nat)
    requires BackedBook(b) && PayAction(b, a, now).Ok?
    ensures i < |b.ledger| && b.ledger[i].key == ActionKey(a.id)
    ensures var after, accrued := PayAction(b, a, now).value, b.ledger[i].delta.dividends;
      && BackedBook(after)
      && after.paid == b.paid + {a.id} && SameRecords(b, after.(paid := b.paid))
      && after.orders == b.orders && after.positions == b.positions
      && accrued >= 0 && a.payAt <= now
      && Posts(b, after, PaymentEntry(b.account, a, accrued, now))
  {
    i := FirstWithKeyIsThere(b.ledger, ActionKey(a.id));
    BalancesKeepBacking(b.account, b.positions, b.orders,
                        PaymentEntry(b.account, a, b.ledger[i].delta.dividends, now).delta);
  }
}
