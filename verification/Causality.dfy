// Entries are recorded out of economic order. At every cutoff, folding only the entries effective by then leaves each
// bucket at least what the obligations open at that cutoff need, and so never negative.
module Causality {
  import opened Money
  import opened Domain
  import opened Calendars
  import opened Sums
  import opened Holdings
  import opened Ledger
  import opened Reservations
  import opened Replay
  import opened BookEvents
  import opened BookMeaning

  // ---------- Measures at a cutoff ----------

  function UpTo(cutoff: int, f: LedgerEntry -> int): LedgerEntry -> int {
    (e: LedgerEntry) => if e.effectiveAt <= cutoff then f(e) else 0
  }

  /** Cash held by the open buys reserved by the cutoff. */
  function CashHeldSince(cutoff: int): Order -> int {
    (o: Order) => if o.createdAt <= cutoff then CashHeld()(o) else 0
  }

  /** Shares held by the open sells whose opening is not after the cutoff. */
  function SharesDue(id: int, cutoff: int): Order -> int {
    (o: Order) => if o.targetOpenAt <= cutoff then SharesHeld(id)(o) else 0
  }

  function Opening(initialCash: int, k: Bucket): int {
    if k == AvailableCash then initialCash else 0
  }

  /** The amount of a bucket folded from the entries effective by the cutoff. */
  function FoldedAmount(initialCash: int, ledger: seq<LedgerEntry>, cutoff: int, k: Bucket): int {
    Opening(initialCash, k) + Sum(ledger, UpTo(cutoff, In(k)))
  }

  ghost predicate CoveredAt(b: Book, cutoff: int) {
    && FoldedAmount(b.account.initialCash, b.ledger, cutoff, AvailableCash) >= 0
    && FoldedAmount(b.account.initialCash, b.ledger, cutoff, ReservedCash) >= Sum(b.orders, CashHeldSince(cutoff))
    && FoldedAmount(b.account.initialCash, b.ledger, cutoff, UnsettledCash)
       >= Sum(b.ledger, UpTo(cutoff, Outstanding(b.settled)))
    && FoldedAmount(b.account.initialCash, b.ledger, cutoff, DividendCash)
       >= Sum(b.ledger, UpTo(cutoff, Unpaid(b.paid)))
    && forall id :: Sum(b.ledger, UpTo(cutoff, SharesIn(id))) >= Sum(b.orders, SharesDue(id, cutoff))
  }

  ghost predicate NonNegativeAt(initialCash: int, ledger: seq<LedgerEntry>, cutoff: int) {
    forall k: Bucket :: FoldedAmount(initialCash, ledger, cutoff, k) >= 0
  }

  /** No prefix of the recorded ledger folds to a negative amount at any cutoff. */
  ghost predicate NeverNegative(initialCash: int, ledger: seq<LedgerEntry>) {
    forall n, cutoff :: 0 <= n <= |ledger| ==> NonNegativeAt(initialCash, ledger[..n], cutoff)
  }

  /** Everything recorded or reserved so far is effective by `now`. */
  ghost predicate Timed(b: Book, now: int) {
    && (forall i :: 0 <= i < |b.ledger| ==> b.ledger[i].effectiveAt <= now)
    && (forall n :: 0 <= n < |b.orders| && !b.orders[n].Terminal() ==> b.orders[n].createdAt <= now)
  }

  /** Every change of a holding so far is effective by `t`. */
  ghost predicate Moved(b: Book, t: int) {
    forall i :: 0 <= i < |b.ledger| && b.ledger[i].quantityDelta != 0 ==> b.ledger[i].effectiveAt <= t
  }

  /** Action entries carry the instant of their action, and a dividend is not payable before that. */
  ghost predicate Dated(b: Book) {
    && (forall i :: 0 <= i < |b.ledger| && b.ledger[i].key.ActionKey? ==>
          b.ledger[i].key.action in b.applied
            && b.ledger[i].effectiveAt == b.applied[b.ledger[i].key.action].effectiveAt)
    && (forall id :: id in b.applied && b.applied[id].kind == Dividend ==>
          b.applied[id].payAt >= b.applied[id].effectiveAt)
  }

  ghost predicate Causal(b: Book, now: int) {
    && Sound(b) && Timed(b, now) && Dated(b)
    && (forall cutoff :: CoveredAt(b, cutoff))
    && NeverNegative(b.account.initialCash, b.ledger)
  }

  lemma NewBookIsCausal(initialCash: int, now: int)
    requires 0 < initialCash <= MAX_INITIAL_CASH
    ensures Causal(NewBook(initialCash), now) && Moved(NewBook(initialCash), now)
  {
    NewBookIsSound(initialCash);
    var b := NewBook(initialCash);
    forall cutoff
      ensures CoveredAt(b, cutoff) && NonNegativeAt(initialCash, b.ledger, cutoff)
    {
    }
  }

  // ---------- Sums at a cutoff ----------

  lemma SumUpToLater(ledger: seq<LedgerEntry>, cutoff: int, f: LedgerEntry -> int)
    requires forall i :: 0 <= i < |ledger| && f(ledger[i]) != 0 ==> ledger[i].effectiveAt <= cutoff
    ensures Sum(ledger, UpTo(cutoff, f)) == Sum(ledger, f)
  {
    SameSum(ledger, UpTo(cutoff, f), f);
  }

  /** Open orders hold no more at a cutoff than they hold in all. */
  lemma HeldAtCutoff(account: int, orders: seq<Order>, cutoff: int, id: int)
    requires SoundOrders(account, orders)
    ensures 0 <= Sum(orders, CashHeldSince(cutoff)) <= Sum(orders, CashHeld())
    ensures 0 <= Sum(orders, SharesDue(id, cutoff)) <= Sum(orders, SharesHeld(id))
  {
    SumNonNegative(orders, CashHeldSince(cutoff));
    SumNonNegative(orders, SharesDue(id, cutoff));
    SumMonotone(orders, CashHeldSince(cutoff), CashHeld());
    SumMonotone(orders, SharesDue(id, cutoff), SharesHeld(id));
  }

  /** Closing an order takes what it held out of the sums at every cutoff. */
  lemma ClosedAtCutoff(orders: seq<Order>, n: nat, closed: Order, cutoff: int)
    requires n < |orders| && closed.Terminal()
    ensures Sum(orders[n := closed], CashHeldSince(cutoff))
         == Sum(orders, CashHeldSince(cutoff)) - CashHeldSince(cutoff)(orders[n])
    ensures forall id :: Sum(orders[n := closed], SharesDue(id, cutoff))
                      == Sum(orders, SharesDue(id, cutoff)) - SharesDue(id, cutoff)(orders[n])
  {
    SumUpdate(orders, n, closed, CashHeldSince(cutoff));
    assert CashHeld()(closed) == 0;
    forall id
      ensures Sum(orders[n := closed], SharesDue(id, cutoff))
           == Sum(orders, SharesDue(id, cutoff)) - SharesDue(id, cutoff)(orders[n])
    {
      SumUpdate(orders, n, closed, SharesDue(id, cutoff));
      assert SharesHeld(id)(closed) == 0;
    }
  }

  lemma ReservedWithinHeld(positions: seq<Position>, id: int)
    requires SoundRows(positions)
    ensures Reserved(positions, id) <= Held(positions, id)
  {
    SumMonotone(positions, ReservedSharesOf(id), SharesOf(id));
  }

  /** When every entry is effective by the cutoff the fold is the book itself. */
  lemma FoldIsTheBook(b: Book, cutoff: int)
    requires Balanced(b) && forall i :: 0 <= i < |b.ledger| ==> b.ledger[i].effectiveAt <= cutoff
    ensures forall k: Bucket ::
      FoldedAmount(b.account.initialCash, b.ledger, cutoff, k) == Amount(b.account.balances, k)
    ensures forall id :: Sum(b.ledger, UpTo(cutoff, SharesIn(id))) == Held(b.positions, id)
  {
    forall k: Bucket
      ensures FoldedAmount(b.account.initialCash, b.ledger, cutoff, k) == Amount(b.account.balances, k)
    {
      SumUpToLater(b.ledger, cutoff, In(k));
    }
    forall id
      ensures Sum(b.ledger, UpTo(cutoff, SharesIn(id))) == Held(b.positions, id)
    {
      SumUpToLater(b.ledger, cutoff, SharesIn(id));
    }
  }

  lemma PostAtCutoff(before: Book, after: Book, e: LedgerEntry, cutoff: int)
    requires Posts(before, after, e)
    ensures forall k: Bucket :: FoldedAmount(after.account.initialCash, after.ledger, cutoff, k)
                             == FoldedAmount(before.account.initialCash, before.ledger, cutoff, k)
                               + UpTo(cutoff, In(k))(e)
    ensures forall id :: Sum(after.ledger, UpTo(cutoff, SharesIn(id)))
                      == Sum(before.ledger, UpTo(cutoff, SharesIn(id))) + UpTo(cutoff, SharesIn(id))(e)
    ensures forall s :: Sum(after.ledger, UpTo(cutoff, Outstanding(s)))
                     == Sum(before.ledger, UpTo(cutoff, Outstanding(s))) + UpTo(cutoff, Outstanding(s))(e)
    ensures forall s :: Sum(after.ledger, UpTo(cutoff, Unpaid(s)))
                     == Sum(before.ledger, UpTo(cutoff, Unpaid(s))) + UpTo(cutoff, Unpaid(s))(e)
  {
    forall k: Bucket
      ensures Sum(after.ledger, UpTo(cutoff, In(k))) == Sum(before.ledger, UpTo(cutoff, In(k))) + UpTo(cutoff, In(k))(e)
    {
      SumAppend(before.ledger, e, UpTo(cutoff, In(k)));
    }
    forall id
      ensures Sum(after.ledger, UpTo(cutoff, SharesIn(id)))
           == Sum(before.ledger, UpTo(cutoff, SharesIn(id))) + UpTo(cutoff, SharesIn(id))(e)
    {
      SumAppend(before.ledger, e, UpTo(cutoff, SharesIn(id)));
    }
    forall s
      ensures Sum(after.ledger, UpTo(cutoff, Outstanding(s)))
           == Sum(before.ledger, UpTo(cutoff, Outstanding(s))) + UpTo(cutoff, Outstanding(s))(e)
    {
      SumAppend(before.ledger, e, UpTo(cutoff, Outstanding(s)));
    }
    forall s
      ensures Sum(after.ledger, UpTo(cutoff, Unpaid(s)))
           == Sum(before.ledger, UpTo(cutoff, Unpaid(s))) + UpTo(cutoff, Unpaid(s))(e)
    {
      SumAppend(before.ledger, e, UpTo(cutoff, Unpaid(s)));
    }
  }

  // ---------- Never negative ----------

  lemma ObligationsAreNonNegative(b: Book, cutoff: int)
    requires Sound(b)
    ensures Sum(b.ledger, UpTo(cutoff, Outstanding(b.settled))) >= 0
    ensures Sum(b.ledger, UpTo(cutoff, Unpaid(b.paid))) >= 0
  {
    forall e | e in b.ledger
      ensures SoundEntry(b.applied.Keys, e)
    {
      var i :| 0 <= i < |b.ledger| && b.ledger[i] == e;
    }
    SumNonNegative(b.ledger, UpTo(cutoff, Outstanding(b.settled)));
    SumNonNegative(b.ledger, UpTo(cutoff, Unpaid(b.paid)));
  }

  lemma CoveredIsNonNegative(b: Book, cutoff: int)
    requires Sound(b) && CoveredAt(b, cutoff)
    ensures NonNegativeAt(b.account.initialCash, b.ledger, cutoff)
  {
    HeldAtCutoff(b.account.id, b.orders, cutoff, 0);
    ObligationsAreNonNegative(b, cutoff);
  }

  lemma NeverNegativeExtends(b: Book, after: Book, e: LedgerEntry)
    requires NeverNegative(b.account.initialCash, b.ledger) && Posts(b, after, e)
    requires Sound(after) && forall cutoff :: CoveredAt(after, cutoff)
    ensures NeverNegative(after.account.initialCash, after.ledger)
  {
    hide CoveredAt;
    hide Sound;
    forall n, cutoff | 0 <= n <= |after.ledger|
      ensures NonNegativeAt(after.account.initialCash, after.ledger[..n], cutoff)
    {
      if n <= |b.ledger| {
        assert after.ledger[..n] == b.ledger[..n];
      } else {
        assert after.ledger[..n] == after.ledger;
        CoveredIsNonNegative(after, cutoff);
      }
    }
  }

  /** An event that records one entry, effective by now, and covers every cutoff keeps the whole invariant. */
  lemma EventKeepsCausal(b: Book, after: Book, e: LedgerEntry, now: int)
    requires Causal(b, now) && Posts(b, after, e) && e.effectiveAt <= now
    requires Sound(after) && Dated(after) && (forall cutoff :: CoveredAt(after, cutoff))
    requires forall n :: 0 <= n < |after.orders| && !after.orders[n].Terminal() ==> after.orders[n].createdAt <= now
    ensures Causal(after, now)
  {
    NeverNegativeExtends(b, after, e);
    hide Sound;
    hide Dated;
    hide CoveredAt;
    hide NeverNegative;
  }

  // ---------- Reservation ----------

  /** Once every entry is effective a sound book is covered: folding is then the book itself. */
  lemma SoundIsCovered(b: Book, cutoff: int)
    requires Sound(b) && forall i :: 0 <= i < |b.ledger| ==> b.ledger[i].effectiveAt <= cutoff
    ensures CoveredAt(b, cutoff)
  {
    SoundParts(b);
    hide Sound;
    FoldIsTheBook(b, cutoff);
    hide Balanced;
    SumUpToLater(b.ledger, cutoff, Outstanding(b.settled));
    SumUpToLater(b.ledger, cutoff, Unpaid(b.paid));
    HeldAtCutoff(b.account.id, b.orders, cutoff, 0);
    forall id
      ensures Sum(b.ledger, UpTo(cutoff, SharesIn(id))) >= Sum(b.orders, SharesDue(id, cutoff))
    {
      ReservedWithinHeld(b.positions, id);
      HeldAtCutoff(b.account.id, b.orders, cutoff, id);
      assert Reserved(b.positions, id) == Sum(b.orders, SharesHeld(id));
    }
    hide Sum;
    assert forall k: Bucket ::
           FoldedAmount(b.account.initialCash, b.ledger, cutoff, k) == Amount(b.account.balances, k);
  }

  /** Before its entry is effective, a reservation changes nothing at the cutoff. */
  lemma IssuedLater(b: Book, o: Order, after: Book, cutoff: int)
    requires Posts(b, after, ReserveEntry(b.account, o)) && after.orders == b.orders + [o] && SameRecords(b, after)
    requires CoveredAt(b, cutoff) && cutoff < o.createdAt < o.targetOpenAt
    ensures CoveredAt(after, cutoff)
  {
    PostAtCutoff(b, after, ReserveEntry(b.account, o), cutoff);
    SumAppend(b.orders, o, CashHeldSince(cutoff));
    forall id
      ensures Sum(after.ledger, UpTo(cutoff, SharesIn(id))) >= Sum(after.orders, SharesDue(id, cutoff))
    {
      SumAppend(b.orders, o, SharesDue(id, cutoff));
      assert Sum(b.ledger, UpTo(cutoff, SharesIn(id))) >= Sum(b.orders, SharesDue(id, cutoff));
    }
    hide Sum;
  }

  lemma IssueCovers(b: Book, o: Order, cutoff: int)
    requires Causal(b, o.createdAt) && Issue(b, o).Ok? && FillKey(o.id) !in b.settled
    ensures CoveredAt(Issue(b, o).value, cutoff)
  {
    assert CoveredAt(b, cutoff) && BackedBook(b);
    IssuePosts(b, o);
    IssueKeepsSound(b, o);
    var after := Issue(b, o).value;
    hide Issue;
    hide Sound;
    hide CoveredAt;
    hide BackedBook;
    if cutoff >= o.createdAt {
      SoundIsCovered(after, cutoff);
    } else {
      IssuedLater(b, o, after, cutoff);
    }
  }

  lemma IssueKeepsCausal(b: Book, o: Order)
    requires Causal(b, o.createdAt) && Issue(b, o).Ok? && FillKey(o.id) !in b.settled
    ensures Causal(Issue(b, o).value, o.createdAt)
  {
    var after := Issue(b, o).value;
    IssuePosts(b, o);
    IssueKeepsSound(b, o);
    forall cutoff
      ensures CoveredAt(after, cutoff)
    {
      IssueCovers(b, o, cutoff);
    }
    hide Sound;
    hide Issue;
    hide CoveredAt;
    hide NeverNegative;
    hide BackedBook;
    EventKeepsCausal(b, after, ReserveEntry(b.account, o), o.createdAt);
  }

  // ---------- Release ----------

  lemma ReleaseCovers(b: Book, n: nat, why: Reason, state: OrderState, now: int, cutoff: int)
    requires Causal(b, now) && n < |b.orders| && !b.orders[n].Terminal()
    requires state != Pending && state != AwaitingBar
    requires CloseUnfilled(b, n, why, state, now).Ok?
    ensures CoveredAt(CloseUnfilled(b, n, why, state, now).value, cutoff)
  {
    ReleasePosts(b, n, why, state, now);
    var after := CloseUnfilled(b, n, why, state, now).value;
    var o := b.orders[n];
    assert SoundOrder(b.account.id, o);
    assert CoveredAt(b, cutoff);
    PostAtCutoff(b, after, ReleaseEntry(b.account, o, Released(why), now), cutoff);
    ClosedAtCutoff(b.orders, n, o.(state := state), cutoff);
    hide CloseUnfilled;
    hide Sum;
    hide Causal;
  }

  lemma ReleaseKeepsCausal(b: Book, n: nat, why: Reason, state: OrderState, now: int)
    requires Causal(b, now) && n < |b.orders| && !b.orders[n].Terminal()
    requires state != Pending && state != AwaitingBar
    requires CloseUnfilled(b, n, why, state, now).Ok?
    ensures Causal(CloseUnfilled(b, n, why, state, now).value, now)
  {
    var after := CloseUnfilled(b, n, why, state, now).value;
    ReleasePosts(b, n, why, state, now);
    ReleaseKeepsSound(b, n, why, state, now);
    forall cutoff
      ensures CoveredAt(after, cutoff)
    {
      ReleaseCovers(b, n, why, state, now, cutoff);
    }
    hide Sound;
    hide CloseUnfilled;
    hide CoveredAt;
    hide NeverNegative;
    hide BackedBook;
    EventKeepsCausal(b, after, ReleaseEntry(b.account, b.orders[n], Released(why), now), now);
  }

  // ---------- Fill ----------

  /** A fill gives back what its order held and takes no more than that; the gives and takes share one instant. */
  lemma FillEntryCovers(b: Book, after: Book, n: nat, fill: Fill, e: LedgerEntry, cutoff: int)
    requires n < |b.orders| && !b.orders[n].Terminal() && Closes(fill, b.orders[n])
    requires SoundOrder(b.account.id, b.orders[n])
    requires CoveredAt(b, cutoff) && Posts(b, after, e)
    requires after.settled == b.settled && after.paid == b.paid && FillKey(fill.orderId) !in b.settled
    requires |after.orders| == |b.orders| && after.orders == b.orders[n := after.orders[n]]
    requires after.orders[n].Terminal()
    requires e.key == FillKey(fill.orderId) && e.instrument == fill.instrument && e.effectiveAt == fill.effectiveAt
    requires e.kind == (if fill.side == Buy then BuyFill else SellFill)
    requires e.delta == (if fill.side == Buy
                         then Balances(fill.reservedCash - fill.gross - fill.fee, -fill.reservedCash, 0, 0)
                         else Balances(0, 0, fill.gross - fill.fee, 0))
    requires e.quantityDelta == SharesBought(fill, fill.instrument) && fill.quantity > 0
    requires fill.side == Sell ==> fill.quantity <= fill.reservedQuantity
    requires fill.side == Buy ==> fill.gross + fill.fee <= fill.reservedCash
    ensures CoveredAt(after, cutoff)
  {
    PostAtCutoff(b, after, e, cutoff);
    ClosedAtCutoff(b.orders, n, after.orders[n], cutoff);
    hide Sum;
    var o := b.orders[n];
    assert CashHeld()(o) == if o.side == Buy then o.reservedCash else 0;
    assert forall id :: SharesHeld(id)(o) == if o.side == Sell && o.instrument == id then o.reservedQuantity else 0;
    forall id
      ensures Sum(after.ledger, UpTo(cutoff, SharesIn(id))) >= Sum(after.orders, SharesDue(id, cutoff))
    {
      assert Sum(b.ledger, UpTo(cutoff, SharesIn(id))) >= Sum(b.orders, SharesDue(id, cutoff));
      assert Sum(after.ledger, UpTo(cutoff, SharesIn(id)))
             == Sum(b.ledger, UpTo(cutoff, SharesIn(id))) + UpTo(cutoff, SharesIn(id))(e);
      assert Sum(after.orders, SharesDue(id, cutoff))
             == Sum(b.orders, SharesDue(id, cutoff)) - SharesDue(id, cutoff)(b.orders[n]);
      assert UpTo(cutoff, SharesIn(id))(e) >= -SharesDue(id, cutoff)(o);
    }
  }

  lemma FillCovers(b: Book, n: nat, fill: Fill, partial: bool, now: int, cutoff: int)
    requires Causal(b, now) && n < |b.orders| && !b.orders[n].Terminal() && Closes(fill, b.orders[n])
    requires CloseFilled(b, n, fill, partial).Ok?
    ensures CoveredAt(CloseFilled(b, n, fill, partial).value, cutoff)
  {
    assert SoundOrder(b.account.id, b.orders[n]) && FillKey(fill.orderId) !in b.settled;
    assert CoveredAt(b, cutoff) && BackedBook(b);
    hide Causal;
    FillPosts(b, n, fill, partial);
    hide CloseFilled;
    hide CoveredAt;
    hide BackedBook;
    hide Posts;
    hide SoundOrder;
    var after := CloseFilled(b, n, fill, partial).value;
    FillEntryCovers(b, after, n, fill, after.ledger[|after.ledger| - 1], cutoff);
  }

  lemma FillKeepsCausal(b: Book, n: nat, fill: Fill, partial: bool, now: int)
    requires Causal(b, now) && n < |b.orders| && !b.orders[n].Terminal() && Closes(fill, b.orders[n])
    requires fill.effectiveAt <= now
    requires CloseFilled(b, n, fill, partial).Ok?
    ensures Causal(CloseFilled(b, n, fill, partial).value, now)
  {
    var after := CloseFilled(b, n, fill, partial).value;
    FillPosts(b, n, fill, partial);
    FillKeepsSound(b, n, fill, partial);
    forall cutoff
      ensures CoveredAt(after, cutoff)
    {
      FillCovers(b, n, fill, partial, now, cutoff);
    }
    hide Sound;
    hide CloseFilled;
    hide CoveredAt;
    hide NeverNegative;
    hide BackedBook;
    EventKeepsCausal(b, after, after.ledger[|after.ledger| - 1], now);
  }

  // ---------- Corporate actions ----------

  /** An action's entry takes no cash; and when it moves shares, all movements so far are effective with it. */
  lemma ActionEntryCovers(b: Book, after: Book, a: CorporateAction, e: LedgerEntry, cutoff: int)
    requires CoveredAt(b, cutoff) && Posts(b, after, e) && Balanced(b) && Moved(b, a.effectiveAt)
    requires BackedBook(after) && after.orders == b.orders && after.settled == b.settled && after.paid == b.paid
    requires e.effectiveAt == a.effectiveAt && e.instrument == a.instrument && e.kind != SellFill
    requires e.key == ActionKey(a.id)
    requires e.delta.reserved == 0 && e.delta.unsettled == 0 && e.delta.available >= 0 && e.delta.dividends >= 0
    ensures CoveredAt(after, cutoff)
  {
    PostAtCutoff(b, after, e, cutoff);
    forall id
      ensures Sum(after.ledger, UpTo(cutoff, SharesIn(id))) >= Sum(after.orders, SharesDue(id, cutoff))
    {
      assert Sum(b.ledger, UpTo(cutoff, SharesIn(id))) >= Sum(b.orders, SharesDue(id, cutoff));
      if e.quantityDelta != 0 && a.effectiveAt <= cutoff {
        SumUpToLater(b.ledger, cutoff, SharesIn(id));
        assert Held(b.positions, id) == Sum(b.ledger, SharesIn(id));
        ReservedWithinHeld(after.positions, id);
        HeldAtCutoff(after.account.id, after.orders, cutoff, id);
        assert Reserved(after.positions, id) == Sum(after.orders, SharesHeld(id));
      }
    }
    hide Sum;
    hide Posts;
    hide BackedBook;
    hide Balanced;
  }

  lemma ActionCovers(b: Book, a: CorporateAction, now: int, cutoff: int)
    requires Causal(b, now) && ApplyAction(b, a).Ok? && a.id !in b.applied && Moved(b, a.effectiveAt)
    ensures CoveredAt(ApplyAction(b, a).value, cutoff)
  {
    assert CoveredAt(b, cutoff) && BackedBook(b) && Balanced(b);
    hide Causal;
    ActionPosts(b, a);
    hide ApplyAction;
    hide CoveredAt;
    hide BackedBook;
    hide Balanced;
    hide Posts;
    hide Moved;
    var after := ApplyAction(b, a).value;
    ActionEntryCovers(b, after, a, after.ledger[|after.ledger| - 1], cutoff);
  }

  lemma ActionKeepsCausal(b: Book, a: CorporateAction, now: int)
    requires Causal(b, now) && ApplyAction(b, a).Ok? && a.id !in b.applied && Moved(b, a.effectiveAt)
    requires a.effectiveAt <= now
    ensures Causal(ApplyAction(b, a).value, now)
  {
    var after := ApplyAction(b, a).value;
    ActionPosts(b, a);
    ActionKeepsSound(b, a);
    forall cutoff
      ensures CoveredAt(after, cutoff)
    {
      ActionCovers(b, a, now, cutoff);
    }
    hide Sound;
    hide ApplyAction;
    hide CoveredAt;
    hide NeverNegative;
    hide BackedBook;
    EventKeepsCausal(b, after, after.ledger[|after.ledger| - 1], now);
  }

  // ---------- Dividend payment ----------

  lemma PaidAtCutoff(ledger: seq<LedgerEntry>, paid: set<int>, i: nat, id: int, cutoff: int)
    requires i < |ledger| && ledger[i].key == ActionKey(id) && id !in paid
    requires forall k :: 0 <= k < |ledger| && k != i ==> ledger[k].key != ActionKey(id)
    ensures Sum(ledger, UpTo(cutoff, Unpaid(paid + {id})))
         == Sum(ledger, UpTo(cutoff, Unpaid(paid))) - if ledger[i].effectiveAt <= cutoff then ledger[i].delta.dividends
           else 0
  {
    var f, g := UpTo(cutoff, Unpaid(paid + {id})), UpTo(cutoff, Unpaid(paid));
    SumSplit(ledger, i, f);
    SumSplit(ledger, i, g);
    SameSum(ledger[..i], f, g);
    SameSum(ledger[i + 1..], f, g);
  }

  lemma PaymentCovers(b: Book, a: CorporateAction, now: int, cutoff: int)
    requires Causal(b, now) && PayAction(b, a, now).Ok? && a.id !in b.paid
    requires a.id in b.applied && SameActionEconomics(b.applied[a.id], a) && a.kind == Dividend
    ensures CoveredAt(PayAction(b, a, now).value, cutoff)
  {
    var i := PaymentPosts(b, a, now);
    var after := PayAction(b, a, now).value;
    hide PayAction;
    var e := PaymentEntry(b.account, a, b.ledger[i].delta.dividends, now);
    assert CoveredAt(b, cutoff);
    PostAtCutoff(b, after, e, cutoff);
    PaidAtCutoff(b.ledger, b.paid, i, a.id, cutoff);
    assert b.ledger[i].effectiveAt == b.applied[a.id].effectiveAt == a.effectiveAt <= a.payAt;
    hide Sum;
    hide Causal;
    forall id
      ensures Sum(after.ledger, UpTo(cutoff, SharesIn(id))) >= Sum(after.orders, SharesDue(id, cutoff))
    {
      assert Sum(b.ledger, UpTo(cutoff, SharesIn(id))) >= Sum(b.orders, SharesDue(id, cutoff));
    }
  }

  lemma PaymentKeepsCausal(b: Book, a: CorporateAction, now: int)
    requires Causal(b, now) && PayAction(b, a, now).Ok? && a.id !in b.paid
    requires a.id in b.applied && SameActionEconomics(b.applied[a.id], a) && a.kind == Dividend
    ensures Causal(PayAction(b, a, now).value, now)
  {
    var after := PayAction(b, a, now).value;
    var i := PaymentPosts(b, a, now);
    PaymentKeepsSound(b, a, now);
    forall cutoff
      ensures CoveredAt(after, cutoff)
    {
      PaymentCovers(b, a, now, cutoff);
    }
    hide Sound;
    hide PayAction;
    hide CoveredAt;
    hide NeverNegative;
    hide BackedBook;
    EventKeepsCausal(b, after, PaymentEntry(b.account, a, b.ledger[i].delta.dividends, now), now);
  }

  // ---------- Settlement ----------

  /** At any cutoff, a settlement takes no more out of the fold than it takes out of what is outstanding. */
  ghost predicate SettlesWithin(sales: seq<LedgerEntry>, calendar: Calendar, now: int, m: CashMutation, cutoff: int) {
    Sum(m.entries, UpTo(cutoff, In(UnsettledCash))) >= -Sum(sales, UpTo(cutoff, DueAmount(calendar, now)))
  }

  lemma SettlesWithinNext(account: Account, init: seq<LedgerEntry>, s: LedgerEntry, calendar: Calendar, now: int,
                          m: CashMutation, n: CashMutation, cutoff: int)
    requires SettlesAtMidnight(calendar)
    requires SettlesWithin(init, calendar, now, m, cutoff) && SettlesNext(account, s, calendar, now, m, n)
    requires Receivable(account, s)
    ensures SettlesWithin(init + [s], calendar, now, n, cutoff)
  {
    SumAppend(init, s, UpTo(cutoff, DueAmount(calendar, now)));
    if IsDue(calendar, now, s) {
      SettlementIsLater(calendar, s.effectiveAt);
      hide SettlementStart;
      var e := SettlementEntry(account, s, SettlementStart(calendar, s.effectiveAt).value, now);
      SumAppend(m.entries, e, UpTo(cutoff, In(UnsettledCash)));
      hide Sum;
    }
  }

  lemma {:induction false} SettlementWithin(account: Account, sales: seq<LedgerEntry>, calendar: Calendar, now: int,
                                            cutoff: int)
    requires SettlesAtMidnight(calendar)
    requires SettleReceivables(account, sales, calendar, now).Ok?
    ensures SettlesWithin(sales, calendar, now, SettleReceivables(account, sales, calendar, now).value, cutoff)
  {
    if sales != [] {
      hide SettlesWithin;
      hide SettlesAtMidnight;
      hide SettlementStart;
      var init, s := sales[..|sales| - 1], sales[|sales| - 1];
      SettlementWithin(account, init, calendar, now, cutoff);
      var m := SettleReceivables(account, init, calendar, now).value;
      assert init + [s] == sales;
      SettlesWithinNext(account, init, s, calendar, now, m, SettleReceivables(account, sales, calendar, now).value,
                        cutoff);
    }
  }

  lemma OutstandingAtCutoff(b: Book, calendar: Calendar, now: int, m: CashMutation, cutoff: int)
    requires SettlesKeys(Sales(b), calendar, now, m)
    ensures Sum(b.ledger, UpTo(cutoff, Outstanding(b.settled + SettledKeys(m.entries))))
         == Sum(b.ledger, UpTo(cutoff, Outstanding(b.settled))) - Sum(Sales(b), UpTo(cutoff, DueAmount(calendar, now)))
  {
    hide Sum;
    hide IsDue;
    hide SettlesKeys;
    var awaiting := AwaitingSettlement(b.settled);
    var marked := b.settled + SettledKeys(m.entries);
    var due := UpTo(cutoff, DueAmount(calendar, now));
    SumOfFiltered(b.ledger, awaiting, due);
    forall e | e in b.ledger
      ensures UpTo(cutoff, Outstanding(marked))(e) == UpTo(cutoff, Outstanding(b.settled))(e) - Where(awaiting, due)(e)
    {
      if awaiting(e) {
        MarkedIffDue(b, calendar, now, m, e);
      }
    }
    SumOfDifference(b.ledger, UpTo(cutoff, Outstanding(marked)), UpTo(cutoff, Outstanding(b.settled)),
                    Where(awaiting, due));
  }

  lemma SettlementSumsAtCutoff(ledger: seq<LedgerEntry>, entries: seq<LedgerEntry>, now: int, settled: set<EventKey>,
                               paid: set<int>, cutoff: int)
    requires forall i :: 0 <= i < |entries| ==> SettlementLike(entries[i], now)
    ensures Sum(ledger + entries, UpTo(cutoff, Outstanding(settled))) == Sum(ledger, UpTo(cutoff, Outstanding(settled)))
    ensures Sum(ledger + entries, UpTo(cutoff, Unpaid(paid))) == Sum(ledger, UpTo(cutoff, Unpaid(paid)))
    ensures forall id :: Sum(ledger + entries, UpTo(cutoff, SharesIn(id))) == Sum(ledger, UpTo(cutoff, SharesIn(id)))
    ensures Sum(entries, UpTo(cutoff, In(AvailableCash))) >= 0
    ensures Sum(entries, UpTo(cutoff, In(ReservedCash))) == 0 && Sum(entries, UpTo(cutoff, In(DividendCash))) == 0
  {
    SumConcat(ledger, entries, UpTo(cutoff, Outstanding(settled)));
    SumIsZero(entries, UpTo(cutoff, Outstanding(settled)));
    SumConcat(ledger, entries, UpTo(cutoff, Unpaid(paid)));
    SumIsZero(entries, UpTo(cutoff, Unpaid(paid)));
    SumNonNegative(entries, UpTo(cutoff, In(AvailableCash)));
    SumIsZero(entries, UpTo(cutoff, In(ReservedCash)));
    SumIsZero(entries, UpTo(cutoff, In(DividendCash)));
    forall id
      ensures Sum(ledger + entries, UpTo(cutoff, SharesIn(id))) == Sum(ledger, UpTo(cutoff, SharesIn(id)))
    {
      SumConcat(ledger, entries, UpTo(cutoff, SharesIn(id)));
      SumIsZero(entries, UpTo(cutoff, SharesIn(id)));
    }
  }

  lemma SettleCovers(b: Book, calendar: Calendar, now: int, m: CashMutation, cutoff: int)
    requires CoveredAt(b, cutoff) && OnlyBalances(b.account, m.account)
    requires SettlesKeys(Sales(b), calendar, now, m) && SettlesWithin(Sales(b), calendar, now, m, cutoff)
    requires forall i :: 0 <= i < |m.entries| ==> SettlementLike(m.entries[i], now)
    ensures CoveredAt(SettledBook(b, m), cutoff)
  {
    OutstandingAtCutoff(b, calendar, now, m, cutoff);
    SettlementSumsAtCutoff(b.ledger, m.entries, now, b.settled + SettledKeys(m.entries), b.paid, cutoff);
    forall k: Bucket
      ensures FoldedAmount(b.account.initialCash, b.ledger + m.entries, cutoff, k)
           == FoldedAmount(b.account.initialCash, b.ledger, cutoff, k) + Sum(m.entries, UpTo(cutoff, In(k)))
    {
      SumConcat(b.ledger, m.entries, UpTo(cutoff, In(k)));
    }
    hide Sum;
    hide SettlesKeys;
    hide SettledKeys;
  }

  function NoCash(): LedgerEntry -> int {
    (e: LedgerEntry) => 0
  }

  /** Within a settlement the folds move one way: a prefix is no lower in unsettled cash than the whole. */
  lemma SettlementPrefix(b: Book, m: CashMutation, now: int, n: nat, cutoff: int)
    requires n <= |m.entries| && forall i :: 0 <= i < |m.entries| ==> SettlementLike(m.entries[i], now)
    requires NonNegativeAt(b.account.initialCash, b.ledger, cutoff)
    requires NonNegativeAt(b.account.initialCash, b.ledger + m.entries, cutoff)
    ensures NonNegativeAt(b.account.initialCash, b.ledger + m.entries[..n], cutoff)
  {
    var head, tail := m.entries[..n], m.entries[n..];
    assert head + tail == m.entries;
    forall k: Bucket
      ensures FoldedAmount(b.account.initialCash, b.ledger + head, cutoff, k) >= 0
    {
      var f := UpTo(cutoff, In(k));
      SumConcat(b.ledger, head, f);
      SumConcat(b.ledger, m.entries, f);
      SumConcat(head, tail, f);
      assert FoldedAmount(b.account.initialCash, b.ledger, cutoff, k) >= 0;
      assert FoldedAmount(b.account.initialCash, b.ledger + m.entries, cutoff, k) >= 0;
      if k == UnsettledCash {
        assert forall e :: e in tail ==> e in m.entries;
        SumMonotone(tail, f, NoCash());
        SumIsZero(tail, NoCash());
      } else {
        assert forall e :: e in head ==> e in m.entries;
        SumNonNegative(head, f);
      }
    }
  }

  lemma SettleNeverNegative(b: Book, m: CashMutation, now: int)
    requires NeverNegative(b.account.initialCash, b.ledger)
    requires forall i :: 0 <= i < |m.entries| ==> SettlementLike(m.entries[i], now)
    requires forall cutoff :: NonNegativeAt(b.account.initialCash, b.ledger + m.entries, cutoff)
    ensures NeverNegative(b.account.initialCash, b.ledger + m.entries)
  {
    hide NonNegativeAt;
    var all := b.ledger + m.entries;
    forall n, cutoff | 0 <= n <= |all|
      ensures NonNegativeAt(b.account.initialCash, all[..n], cutoff)
    {
      if n <= |b.ledger| {
        assert all[..n] == b.ledger[..n];
      } else {
        assert all[..n] == b.ledger + m.entries[..n - |b.ledger|];
        assert b.ledger[..|b.ledger|] == b.ledger;
        assert NonNegativeAt(b.account.initialCash, b.ledger[..|b.ledger|], cutoff);
        SettlementPrefix(b, m, now, n - |b.ledger|, cutoff);
      }
    }
  }

  /** What a settlement records and leaves alone. */
  lemma SettlementShape(b: Book, sales: seq<LedgerEntry>, calendar: Calendar, now: int, m: CashMutation)
    requires SettlesCash(b.account, sales, calendar, now, m)
    ensures OnlyBalances(b.account, m.account)
    ensures forall i :: 0 <= i < |m.entries| ==> SettlementLike(m.entries[i], now)
  {
    hide Sum;
    hide FoldEntries;
  }

  lemma SettleKeepsTimes(b: Book, m: CashMutation, now: int)
    requires Timed(b, now) && Dated(b) && OnlyBalances(b.account, m.account)
    requires forall i :: 0 <= i < |m.entries| ==> SettlementLike(m.entries[i], now)
    ensures Timed(SettledBook(b, m), now) && Dated(SettledBook(b, m))
  {
    hide SettledKeys;
  }

  lemma SettleKeepsCausal(b: Book, calendar: Calendar, now: int)
    requires Causal(b, now) && OpenAreUnfilled(b) && SettlesAtMidnight(calendar)
    requires Settle(b, calendar, now).Ok?
    ensures Causal(Settle(b, calendar, now).value, now) && OpenAreUnfilled(Settle(b, calendar, now).value)
  {
    hide Settle;
    hide SettlesCash;
    hide SettlesKeys;
    hide CoveredAt;
    hide NonNegativeAt;
    hide NeverNegative;
    hide SettledKeys;
    hide BackedBook;
    hide OpenAreUnfilled;
    hide Timed;
    hide Dated;
    SettleKeepsSound(b, calendar, now);
    SoundCash(b);
    hide Sound;
    SettlementIsSettledBook(b, calendar, now);
    var m := Ledger.SettleReceivables(b.account, Sales(b), calendar, now).value;
    SettlementShape(b, Sales(b), calendar, now, m);
    var after := SettledBook(b, m);
    forall cutoff
      ensures CoveredAt(after, cutoff) && NonNegativeAt(b.account.initialCash, b.ledger + m.entries, cutoff)
    {
      SettlementWithin(b.account, Sales(b), calendar, now, cutoff);
      SettleCovers(b, calendar, now, m, cutoff);
      CoveredIsNonNegative(after, cutoff);
    }
    SettleNeverNegative(b, m, now);
    SettleKeepsTimes(b, m, now);
  }

  lemma SoundCash(b: Book)
    requires Sound(b)
    ensures SoundBalances(b.account.balances)
  {
    hide Balanced;
    hide ObligationsMatch;
    hide Conserved;
    hide Keyed;
  }
}
