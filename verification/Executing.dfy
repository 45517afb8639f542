/** Executing the orders of a book at their openings: reserves, causality, capacity and single filling are kept. */
module Executing {
  import opened Domain
  import opened Lists
  import opened Sums
  import opened Holdings
  import opened Reservations
  import opened Snapshots
  import opened Risk
  import opened Execution
  import opened Replay
  import opened BookEvents
  import opened BookMeaning
  import opened Causality
  import opened Planning

  // ---------- Order of the orders ----------

  /** Only the orders differ, and only in their order. */
  predicate Reordered(b: Book, after: Book) {
    after == b.(orders := after.orders) && multiset(after.orders) == multiset(b.orders)
  }

  lemma SameMembers(b: Book, after: Book)
    requires Reordered(b, after)
    ensures forall o :: o in after.orders <==> o in b.orders
  {
    forall o
      ensures o in after.orders <==> o in b.orders
    {
      assert o in after.orders <==> o in multiset(after.orders);
      assert o in b.orders <==> o in multiset(b.orders);
    }
  }

  lemma ReorderedOrder(b: Book, after: Book, n: nat) returns (m: nat)
    requires Reordered(b, after) && n < |after.orders|
    ensures m < |b.orders| && b.orders[m] == after.orders[n]
  {
    SameMembers(b, after);
    assert after.orders[n] in after.orders;
    m :| 0 <= m < |b.orders| && b.orders[m] == after.orders[n];
  }

  lemma ReorderedIsCovered(b: Book, after: Book, cutoff: int)
    requires Reordered(b, after) && CoveredAt(b, cutoff)
    ensures CoveredAt(after, cutoff)
  {
    SumPermuted(after.orders, b.orders, CashHeldSince(cutoff));
    forall id
      ensures Sum(after.ledger, UpTo(cutoff, SharesIn(id))) >= Sum(after.orders, SharesDue(id, cutoff))
    {
      SumPermuted(after.orders, b.orders, SharesDue(id, cutoff));
    }
  }

  lemma ReorderedIsBacked(b: Book, after: Book)
    requires Reordered(b, after) && BackedBook(b)
    ensures BackedBook(after)
  {
    SumPermuted(after.orders, b.orders, CashHeld());
    forall id
      ensures Reserved(after.positions, id) == Sum(after.orders, SharesHeld(id))
    {
      SumPermuted(after.orders, b.orders, SharesHeld(id));
    }
    forall n | 0 <= n < |after.orders|
      ensures SoundOrder(after.account.id, after.orders[n])
    {
      var m := ReorderedOrder(b, after, n);
    }
  }

  lemma ReorderedIsCausal(b: Book, after: Book, now: int)
    requires Reordered(b, after) && Causal(b, now)
    ensures Causal(after, now)
  {
    ReorderedIsBacked(b, after);
    forall cutoff
      ensures CoveredAt(after, cutoff)
    {
      assert CoveredAt(b, cutoff);
      ReorderedIsCovered(b, after, cutoff);
    }
    forall n | 0 <= n < |after.orders| && !after.orders[n].Terminal()
      ensures after.orders[n].createdAt <= now && FillKey(after.orders[n].id) !in after.settled
    {
      var m := ReorderedOrder(b, after, n);
    }
    hide CoveredAt;
    hide NeverNegative;
    hide BackedBook;
    hide Sum;
  }

  lemma ReorderedKeepsNumbers(b: Book, after: Book, date: int, lastOpen: int)
    requires Reordered(b, after) && Numbered(b, date, lastOpen) && WithinCapacity(b) && OpenAreUnfilled(b)
    ensures Numbered(after, date, lastOpen) && WithinCapacity(after) && OpenAreUnfilled(after)
  {
    hide Sum;
    forall n | 0 <= n < |after.orders|
      ensures NumberedOrder(after.orders[n], date, lastOpen) && CapacityKept(after, after.orders[n])
      ensures !after.orders[n].Terminal() ==> forall i :: 0 <= i < |after.ledger| ==>
        after.ledger[i].key != FillKey(after.orders[n].id)
    {
      var m := ReorderedOrder(b, after, n);
      assert CapacityKept(b, b.orders[m]);
    }
    forall m, n | 0 <= m < |after.orders| && 0 <= n < |after.orders| && after.orders[m].id == after.orders[n].id
      ensures after.orders[m].targetOpenAt == after.orders[n].targetOpenAt
      ensures after.orders[m].expiresAt == after.orders[n].expiresAt
    {
      var i := ReorderedOrder(b, after, m);
      var j := ReorderedOrder(b, after, n);
    }
  }

  // ---------- The pass ----------

  /** Whether this pass closes the order if it is still open: its opening has come and its bar is there. */
  predicate Decided(current: Snapshot, o: Order, now: int) {
    now >= o.targetOpenAt && HasOpening(current, o)
  }

  /** After the first `n` orders, an open order either is undecided or is still to come. */
  ghost predicate Swept(b: Book, current: Snapshot, n: nat, now: int) {
    && (forall k :: 0 <= k < n && k < |b.orders| && !b.orders[k].Terminal() ==> !Decided(current, b.orders[k], now))
    && (forall k, i :: 0 <= k < |b.orders| && 0 <= i < |b.ledger| && !b.orders[k].Terminal()
                       && b.ledger[i].key == FillKey(b.orders[k].id)
          ==> k >= n && Decided(current, b.orders[k], now))
  }

  ghost predicate Executing(b: Book, current: Snapshot, n: nat, now: int, date: int, lastOpen: int) {
    && Causal(b, now) && Moved(b, lastOpen) && Numbered(b, date, lastOpen) && WithinCapacity(b)
    && Swept(b, current, n, now)
  }

  lemma SweptClean(b: Book, current: Snapshot, now: int)
    requires Swept(b, current, |b.orders|, now)
    ensures OpenAreUnfilled(b)
  {
  }

  /** Orders changed only in state, at one place; entries added are not fills. */
  ghost predicate StepsAt(b: Book, after: Book, n: nat)
    requires n < |b.orders|
  {
    && |after.orders| == |b.orders| && after.orders == b.orders[n := after.orders[n]]
    && SameTerms(b.orders[n], after.orders[n])
    && after.applied == b.applied && after.settled == b.settled && after.account.initialCash == b.account.initialCash
    && |b.ledger| <= |after.ledger| && after.ledger[..|b.ledger|] == b.ledger
  }

  // ---------- Advancing ----------

  lemma AdvancedIsSound(b: Book, n: nat, now: int)
    requires n < |b.orders| && Sound(b) && !b.orders[n].Terminal()
    ensures Sound(Advance(b, n, now))
  {
    var after := Advance(b, n, now);
    var o := after.orders[n];
    assert SoundOrder(b.account.id, b.orders[n]);
    SumUpdate(b.orders, n, o, CashHeld());
    forall id
      ensures Reserved(after.positions, id) == Sum(after.orders, SharesHeld(id))
    {
      SumUpdate(b.orders, n, o, SharesHeld(id));
      assert Reserved(b.positions, id) == Sum(b.orders, SharesHeld(id));
    }
    hide Sum;
    hide FoldEntries;
  }

  lemma AdvanceKeeps(b: Book, n: nat, now: int)
    requires n < |b.orders| && Causal(b, now) && !b.orders[n].Terminal()
    ensures Causal(Advance(b, n, now), now)
    ensures !Advance(b, n, now).orders[n].Terminal() && StepsAt(b, Advance(b, n, now), n)
  {
    var after := Advance(b, n, now);
    AdvancedIsSound(b, n, now);
    forall cutoff
      ensures CoveredAt(after, cutoff)
    {
      AdvancedIsCovered(b, n, now, cutoff);
    }
    hide Sound;
    hide CoveredAt;
    hide NeverNegative;
  }

  lemma AdvancedIsCovered(b: Book, n: nat, now: int, cutoff: int)
    requires n < |b.orders| && !b.orders[n].Terminal() && Causal(b, now)
    ensures CoveredAt(Advance(b, n, now), cutoff)
  {
    assert CoveredAt(b, cutoff);
    hide Causal;
    var after := Advance(b, n, now);
    var o := after.orders[n];
    SumUpdate(b.orders, n, o, CashHeldSince(cutoff));
    assert CashHeld()(o) == CashHeld()(b.orders[n]);
    forall id
      ensures Sum(after.ledger, UpTo(cutoff, SharesIn(id))) >= Sum(after.orders, SharesDue(id, cutoff))
    {
      SumUpdate(b.orders, n, o, SharesDue(id, cutoff));
      assert SharesHeld(id)(o) == SharesHeld(id)(b.orders[n]);
    }
  }

  // ---------- Capacity ----------

  lemma {:induction false} SmallestCapacityBounds(orders: seq<Order>, o: Order)
    ensures SmallestCapacity(orders, o) <= o.capacity
    ensures forall n :: 0 <= n < |orders| && orders[n].targetOpenAt == o.targetOpenAt
                        && orders[n].instrument == o.instrument
              ==> SmallestCapacity(orders, o) <= orders[n].capacity
  {
    if orders != [] {
      SmallestCapacityBounds(orders[..|orders| - 1], o);
    }
  }

  lemma FillKeepsCapacity(b: Book, after: Book, n: nat, fill: Fill)
    requires n < |b.orders| && WithinCapacity(b) && StepsAt(b, after, n) && after.fills == b.fills + [fill]
    requires Closes(fill, b.orders[n])
    requires fill.quantity <= NotBelowZero(SmallestCapacity(b.orders, b.orders[n])
                                           - Sum(b.fills, SharesFilled(b.orders[n].targetOpenAt,
                                                                       b.orders[n].instrument)))
    requires fill.quantity > 0
    ensures WithinCapacity(after)
  {
    var o := b.orders[n];
    SmallestCapacityBounds(b.orders, o);
    forall k | 0 <= k < |after.orders|
      ensures CapacityKept(after, after.orders[k])
    {
      var p := b.orders[k];
      assert CapacityKept(b, p);
      assert SameTerms(p, after.orders[k]);
      SumAppend(b.fills, fill, SharesFilled(p.targetOpenAt, p.instrument));
    }
  }

  lemma SameFillsKeepCapacity(b: Book, after: Book, n: nat)
    requires n < |b.orders| && WithinCapacity(b) && StepsAt(b, after, n) && after.fills == b.fills
    ensures WithinCapacity(after)
  {
    hide Sum;
    forall k | 0 <= k < |after.orders|
      ensures CapacityKept(after, after.orders[k])
    {
      assert CapacityKept(b, b.orders[k]);
      assert SameTerms(b.orders[k], after.orders[k]);
    }
  }

  // ---------- One order ----------

  /** The entries a step adds: none of them a fill, or one fill of the order that is closed. */
  ghost predicate FillsOnly(b: Book, after: Book, n: nat)
    requires n < |b.orders|
  {
    forall i :: |b.ledger| <= i < |after.ledger| && after.ledger[i].key.FillKey? ==>
      after.ledger[i].key == FillKey(b.orders[n].id) && after.orders != [] && |after.orders| == |b.orders|
        && after.orders[n].Terminal()
  }

  lemma StepKeepsNumbers(b: Book, after: Book, n: nat, date: int, lastOpen: int)
    requires n < |b.orders| && Numbered(b, date, lastOpen) && StepsAt(b, after, n) && FillsOnly(b, after, n)
    requires after.fills == b.fills || (|after.fills| == |b.fills| + 1 && after.fills[..|b.fills|] == b.fills
                                        && after.fills[|b.fills|].effectiveAt == b.orders[n].targetOpenAt)
    ensures Numbered(after, date, lastOpen)
  {
    assert NumberedOrder(b.orders[n], date, lastOpen);
    forall i | 0 <= i < |after.ledger|
      ensures PastFill(after.ledger[i].key, date)
    {
      if i < |b.ledger| {
        assert after.ledger[i] == after.ledger[..|b.ledger|][i];
      }
    }
    forall k | 0 <= k < |after.fills|
      ensures after.fills[k].effectiveAt <= lastOpen
    {
      if k < |b.fills| {
        assert after.fills != b.fills ==> after.fills[k] == after.fills[..|b.fills|][k];
      }
    }
    forall k | 0 <= k < |after.orders|
      ensures SameTerms(b.orders[k], after.orders[k])
    {
    }
    hide SameTerms;
    forall k | 0 <= k < |after.orders|
      ensures NumberedOrder(after.orders[k], date, lastOpen)
    {
      assert NumberedOrder(b.orders[k], date, lastOpen);
      TermsKept(b.orders[k], after.orders[k]);
    }
    forall j, k | 0 <= j < |after.orders| && 0 <= k < |after.orders| && after.orders[j].id == after.orders[k].id
      ensures after.orders[j].targetOpenAt == after.orders[k].targetOpenAt
      ensures after.orders[j].expiresAt == after.orders[k].expiresAt
    {
      TermsKept(b.orders[j], after.orders[j]);
      TermsKept(b.orders[k], after.orders[k]);
    }
  }

  lemma TermsKept(o: Order, p: Order)
    requires SameTerms(o, p)
    ensures p.id == o.id && p.instrument == o.instrument && p.targetOpenAt == o.targetOpenAt
    ensures p.expiresAt == o.expiresAt && p.capacity == o.capacity
  {
  }

  lemma StepKeepsSwept(b: Book, after: Book, current: Snapshot, n: nat, now: int)
    requires n < |b.orders| && Swept(b, current, n, now) && NumbersAgree(b.orders)
    requires forall k :: 0 <= k < |b.orders| ==>
      b.orders[k].id.ReplayId? && b.orders[k].id.instrument == b.orders[k].instrument
    requires StepsAt(b, after, n) && FillsOnly(b, after, n)
    requires b.orders[n].Terminal() ==> after.orders[n].Terminal()
    requires !after.orders[n].Terminal() ==> !Decided(current, b.orders[n], now)
    requires (exists i :: |b.ledger| <= i < |after.ledger| && after.ledger[i].key.FillKey?) ==>
      Decided(current, b.orders[n], now)
    ensures Swept(after, current, n + 1, now)
  {
    forall k | 0 <= k < |after.orders|
      ensures Decided(current, after.orders[k], now) == Decided(current, b.orders[k], now)
      ensures after.orders[k].id == b.orders[k].id
    {
      assert SameTerms(b.orders[k], after.orders[k]);
    }
    forall k, i | 0 <= k < |after.orders| && 0 <= i < |after.ledger| && !after.orders[k].Terminal()
                  && after.ledger[i].key == FillKey(after.orders[k].id)
      ensures k >= n + 1 && Decided(current, after.orders[k], now)
    {
      if i < |b.ledger| {
        assert after.ledger[i] == after.ledger[..|b.ledger|][i];
        assert !b.orders[k].Terminal();
      } else {
        assert b.orders[k].id == b.orders[n].id;
      }
    }
  }

  /** What closing or leaving an order does, whichever way it goes. */
  ghost predicate StepDone(b: Book, after: Book, current: Snapshot, n: nat, now: int)
    requires n < |b.orders|
  {
    && Causal(after, now) && StepsAt(b, after, n) && FillsOnly(b, after, n) && WithinCapacity(after)
    && (b.orders[n].Terminal() ==> after.orders[n].Terminal())
    && (!after.orders[n].Terminal() ==> !Decided(current, b.orders[n], now))
    && ((exists i :: |b.ledger| <= i < |after.ledger| && after.ledger[i].key.FillKey?) ==>
          Decided(current, b.orders[n], now))
    && (after.fills == b.fills || (|after.fills| == |b.fills| + 1 && after.fills[..|b.fills|] == b.fills
                                   && after.fills[|b.fills|].effectiveAt == b.orders[n].targetOpenAt))
    && (forall t :: Moved(b, t) && b.orders[n].targetOpenAt <= t ==> Moved(after, t))
  }

  lemma ReleaseStep(b: Book, current: Snapshot, n: nat, why: Reason, state: OrderState, now: int)
    requires n < |b.orders| && Causal(b, now) && WithinCapacity(b) && !b.orders[n].Terminal()
    requires state != Pending && state != AwaitingBar
    requires CloseUnfilled(b, n, why, state, now).Ok?
    ensures StepDone(b, CloseUnfilled(b, n, why, state, now).value, current, n, now)
  {
    ReleaseKeepsCausal(b, n, why, state, now);
    assert BackedBook(b);
    hide Causal;
    ReleasePosts(b, n, why, state, now);
    hide BackedBook;
    hide HasOpening;
    var after := CloseUnfilled(b, n, why, state, now).value;
    hide CloseUnfilled;
    SameFillsKeepCapacity(b, after, n);
    hide WithinCapacity;
  }

  /** What a fill changes of a book: one order, one fill, one entry. */
  lemma FillShape(b: Book, n: nat, fill: Fill, partial: bool)
    requires n < |b.orders| && BackedBook(b) && !b.orders[n].Terminal() && Closes(fill, b.orders[n])
    requires CloseFilled(b, n, fill, partial).Ok?
    ensures var after := CloseFilled(b, n, fill, partial).value;
      && StepsAt(b, after, n) && FillsOnly(b, after, n) && after.orders[n].Terminal()
      && after.fills == b.fills + [fill] && fill.quantity > 0
      && (forall t :: Moved(b, t) && b.orders[n].targetOpenAt <= t ==> Moved(after, t))
  {
    FillPosts(b, n, fill, partial);
    hide BackedBook;
    hide CloseFilled;
    hide Sum;
  }

  lemma FillStep(b: Book, current: Snapshot, n: nat, fill: Fill, partial: bool, now: int)
    requires n < |b.orders| && Causal(b, now) && WithinCapacity(b) && !b.orders[n].Terminal()
    requires Decided(current, b.orders[n], now) && Closes(fill, b.orders[n])
    requires fill.quantity <= NotBelowZero(SmallestCapacity(b.orders, b.orders[n])
                                           - Sum(b.fills, SharesFilled(b.orders[n].targetOpenAt,
                                                                       b.orders[n].instrument)))
    requires CloseFilled(b, n, fill, partial).Ok?
    ensures StepDone(b, CloseFilled(b, n, fill, partial).value, current, n, now)
  {
    FillKeepsCausal(b, n, fill, partial, now);
    assert BackedBook(b);
    hide Causal;
    FillShape(b, n, fill, partial);
    hide BackedBook;
    hide HasOpening;
    hide CloseFilled;
    hide FillsOnly;
    hide Moved;
    var after := CloseFilled(b, n, fill, partial).value;
    FillKeepsCapacity(b, after, n, fill);
    hide WithinCapacity;
    hide Sum;
    hide StepsAt;
    hide SmallestCapacity;
  }

  lemma MatchStep(b: Book, current: Snapshot, n: nat, input: MatchInput, now: int)
    requires n < |b.orders| && Causal(b, now) && WithinCapacity(b) && !b.orders[n].Terminal()
    requires Decided(current, b.orders[n], now)
    requires input.order == b.orders[n]
    requires input.availableCapacity == NotBelowZero(SmallestCapacity(b.orders, b.orders[n])
                                                     - Sum(b.fills, SharesFilled(b.orders[n].targetOpenAt,
                                                                                 b.orders[n].instrument)))
    requires MatchAtOpen(input).Ok? && CloseMatched(b, n, MatchAtOpen(input).value, now).Ok?
    ensures StepDone(b, CloseMatched(b, n, MatchAtOpen(input).value, now).value, current, n, now)
  {
    hide Causal;
    hide CloseUnfilled;
    hide CloseFilled;
    hide StepDone;
    var matched := MatchAtOpen(input).value;
    match matched.fill
    case None =>
      hide MatchAtOpen;
      ReleaseStep(b, current, n, Unmatched, Rejected, now);
    case Some(fill) =>
      MatchedFillIsAcceptable(input);
      hide MatchAtOpen;
      FillStep(b, current, n, fill, matched.cancelledQuantity > 0, now);
  }

  /** A step after the order has been advanced is a step from before. */
  lemma StepFromAdvanced(b: Book, advanced: Book, after: Book, current: Snapshot, n: nat, now: int)
    requires n < |b.orders| && StepsAt(b, advanced, n) && !b.orders[n].Terminal() && !advanced.orders[n].Terminal()
    requires advanced == b.(orders := advanced.orders)
    requires StepDone(advanced, after, current, n, now)
    ensures StepDone(b, after, current, n, now)
  {
    hide Causal;
    hide WithinCapacity;
    assert HasOpening(current, b.orders[n]) == HasOpening(current, advanced.orders[n]);
    hide HasOpening;
  }

  lemma ExecuteOrderStep(b: Book, source: Snapshot, current: Snapshot, n: nat, now: int)
    requires n < |b.orders| && Causal(b, now) && WithinCapacity(b)
    requires ExecuteOrder(b, source, current, n, now).Ok?
    ensures StepDone(b, ExecuteOrder(b, source, current, n, now).value, current, n, now)
  {
    hide Causal;
    hide CloseUnfilled;
    hide CloseMatched;
    hide ComputeNAV;
    hide MatchAtOpen;
    var o := b.orders[n];
    if !o.Terminal() && now >= o.targetOpenAt {
      AdvanceKeeps(b, n, now);
      var advanced := Advance(b, n, now);
      SameFillsKeepCapacity(b, advanced, n);
      var p := advanced.orders[n];
      if HasOpening(current, p) {
        var date := DateOf(p.targetOpenAt);
        var prior, prices := SelectSnapshot(source, p.targetOpenAt - 1), OpeningPrices(current.bars, date);
        var nav := ComputeNAV(advanced.account, advanced.positions, prior, prices).value;
        hide SelectSnapshot;
        hide StepDone;
        MatchStep(advanced, current, n,
                  MatchInput(p, BarsOn(current.bars, date)[p.instrument].open,
                             NotBelowZero(SmallestCapacity(advanced.orders, p)
                                          - Sum(advanced.fills, SharesFilled(p.targetOpenAt, p.instrument))),
                             Rebalance.PortfolioInput(advanced.account, advanced.positions, advanced.orders, prior,
                                                      Evaluation(false, []), advanced.account.policy, nav, 0,
                                                      Sum(advanced.fills, GrossFilled(p.targetOpenAt)), prices,
                                                      StrategyParameters([], 0.0, 0.0, 0.0, 0)),
                             now), now);
        StepFromAdvanced(b, advanced, ExecuteOrder(b, source, current, n, now).value, current, n, now);
      } else {
        hide HasOpening;
        if now >= p.expiresAt {
          hide StepDone;
          ReleaseStep(advanced, current, n, DataUnavailable, Expired, now);
          StepFromAdvanced(b, advanced, ExecuteOrder(b, source, current, n, now).value, current, n, now);
        } else {
          hide WithinCapacity;
        }
      }
    } else {
      hide WithinCapacity;
      hide HasOpening;
      assert b.orders[n := b.orders[n]] == b.orders;
    }
  }

  lemma {:induction false} ExecuteOrdersKeep(b: Book, source: Snapshot, current: Snapshot, n: nat, now: int, date: int,
                                             lastOpen: int)
    requires n <= |b.orders| && Executing(b, current, 0, now, date, lastOpen)
    requires ExecuteOrders(b, source, current, n, now).Ok?
    ensures Executing(ExecuteOrders(b, source, current, n, now).value, current, n, now, date, lastOpen)
    ensures var after := ExecuteOrders(b, source, current, n, now).value;
      after.applied == b.applied && after.account.initialCash == b.account.initialCash
  {
    hide ExecuteOrder;
    hide Causal;
    hide WithinCapacity;
    hide Numbered;
    hide Swept;
    hide Moved;
    if n > 0 {
      ExecuteOrdersKeep(b, source, current, n - 1, now, date, lastOpen);
      var before := ExecuteOrders(b, source, current, n - 1, now).value;
      ExecuteOrderStep(before, source, current, n - 1, now);
      var after := ExecuteOrder(before, source, current, n - 1, now).value;
      StepKeepsExecuting(before, after, current, n - 1, now, date, lastOpen);
    }
  }

  lemma StepKeepsExecuting(b: Book, after: Book, current: Snapshot, n: nat, now: int, date: int, lastOpen: int)
    requires n < |b.orders| && Executing(b, current, n, now, date, lastOpen) && StepDone(b, after, current, n, now)
    ensures Executing(after, current, n + 1, now, date, lastOpen)
  {
    hide Causal;
    hide WithinCapacity;
    hide HasOpening;
    assert NumberedOrder(b.orders[n], date, lastOpen);
    assert forall k :: 0 <= k < |b.orders| ==> NumberedOrder(b.orders[k], date, lastOpen);
    StepKeepsNumbers(b, after, n, date, lastOpen);
    StepKeepsSwept(b, after, current, n, now);
    hide Swept;
    hide Numbered;
  }

  lemma SortedBook(b: Book) returns (sorted: Book)
    ensures sorted == b.(orders := Sort(b.orders, ByOpening())) && Reordered(b, sorted)
  {
    SortPermutes(b.orders, ByOpening());
    sorted := b.(orders := Sort(b.orders, ByOpening()));
  }

  /** Executing a book keeps the invariant, fills no order twice, and fills no more shares of an opening than its
      capacity. */
  lemma ExecuteKeeps(b: Book, source: Snapshot, current: Snapshot, now: int, date: int, lastOpen: int)
    requires Causal(b, now) && OpenAreUnfilled(b) && Moved(b, lastOpen) && Numbered(b, date, lastOpen)
    requires WithinCapacity(b)
    requires Execute(b, source, current, now).Ok?
    ensures var after := Execute(b, source, current, now).value;
      && Causal(after, now) && OpenAreUnfilled(after) && Moved(after, lastOpen) && Numbered(after, date, lastOpen)
      && WithinCapacity(after) && after.applied == b.applied && after.account.initialCash == b.account.initialCash
  {
    hide Causal;
    hide Numbered;
    hide WithinCapacity;
    hide ExecuteOrders;
    hide HasOpening;
    var sorted := SortedBook(b);
    ReorderedIsCausal(b, sorted, now);
    ReorderedKeepsNumbers(b, sorted, date, lastOpen);
    hide Reordered;
    hide Sort;
    ExecuteOrdersKeep(sorted, source, current, |sorted.orders|, now, date, lastOpen);
    var after := ExecuteOrders(sorted, source, current, |sorted.orders|, now).value;
    SweptClean(after, current, now);
  }
}
