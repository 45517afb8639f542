// The restated value curve: for each session the ledger is folded from scratch, keeping only what was effective by the
// close, and the holdings are valued at the closing prices of that session.
module Refold {
  import opened Outcomes
  import opened Domain
  import opened Calendars
  import opened Lists
  import opened Sums
  import opened Holdings
  import opened Snapshots
  import opened Risk
  import opened Replay
  import opened BookEvents
  import opened BookMeaning
  import opened Causality

  // ---------- Folding ----------

  function RefoldBalances(start: Balances, ledger: seq<LedgerEntry>, cutoff: int): Result<Balances> {
    if ledger == [] then Ok(start)
    else
      var e := ledger[|ledger| - 1];
      var before :- RefoldBalances(start, ledger[..|ledger| - 1], cutoff);
      if e.effectiveAt > cutoff then Ok(before) else ApplyDelta(before, e.delta)
  }

  /** Rows with the quantity of one instrument changed; a name seen for the first time gets a row. */
  function AddShares(rows: seq<Position>, id: int, change: int): seq<Position> {
    var n := IndexOf(rows, id);
    if n == |rows| then rows + [Position(id, change, 0, 0)]
    else rows[n := rows[n].(quantity := rows[n].quantity + change)]
  }

  function RefoldRows(ledger: seq<LedgerEntry>, cutoff: int): seq<Position> {
    if ledger == [] then []
    else
      var e := ledger[|ledger| - 1];
      var before := RefoldRows(ledger[..|ledger| - 1], cutoff);
      if e.effectiveAt > cutoff then before else AddShares(before, e.instrument, e.quantityDelta)
  }

  function HasShares(): Position -> bool {
    (p: Position) => p.quantity > 0
  }

  function RefoldHoldings(ledger: seq<LedgerEntry>, cutoff: int): Result<seq<Position>> {
    var rows := RefoldRows(ledger, cutoff);
    if exists n :: 0 <= n < |rows| && rows[n].quantity < 0 then Err(InvalidInput) else Ok(Filter(rows, HasShares()))
  }

  // ---------- The curve ----------

  function SessionCloses(bars: seq<Bar>, date: int): map<int, int> {
    if bars == [] then map[]
    else
      var b := bars[|bars| - 1];
      var prices := SessionCloses(bars[..|bars| - 1], date);
      if b.sessionDate == date && b.close > 0 then prices[b.instrument := b.close] else prices
  }

  /** What is known of a session when it is restated: up to the close of the next one, but not beyond the replay. */
  function KnownAt(source: Snapshot, session: Session, finalAt: int): Result<Snapshot> {
    var next :- NextSession(source.calendar, session.closeAt);
    Ok(SelectSnapshot(source, if next.closeAt > finalAt then finalAt else next.closeAt))
  }

  function EconomicPoint(b: Book, source: Snapshot, session: Session, finalAt: int): Result<int> {
    var cutoff := DecisionTime(session);
    var balances :- RefoldBalances(StartBalances(b.account.initialCash), b.ledger, cutoff);
    var rows :- RefoldHoldings(b.ledger, cutoff);
    var known :- KnownAt(source, session, finalAt);
    var prices := SessionCloses(known.bars, session.date);
    if exists n :: 0 <= n < |rows| && rows[n].instrument !in prices then Err(DataStale)
    else ComputeNAV(b.account.(balances := balances), rows, known.(asOf := cutoff), prices)
  }

  function EconomicCurve(b: Book, source: Snapshot, sessions: seq<Session>, finalAt: int): Result<seq<int>> {
    if sessions == [] then Ok([])
    else
      var points :- EconomicCurve(b, source, sessions[..|sessions| - 1], finalAt);
      var nav :- EconomicPoint(b, source, sessions[|sessions| - 1], finalAt);
      Ok(points + [nav])
  }

  // ---------- What the fold computes ----------

  /** Applying a delta moves each bucket by its part; it fails with too little cash exactly when a bucket would go
      below zero before any bucket, in order, overflows. */
  lemma DeltaApplies(b: Balances, d: Balances)
    ensures ApplyDelta(b, d).Ok? ==>
      forall k: Bucket :: Amount(ApplyDelta(b, d).value, k) == Amount(b, k) + Amount(d, k)
    ensures (forall k: Bucket :: Amount(b, k) + Amount(d, k) >= 0) && ApplyDelta(b, d).Err?
      ==> ApplyDelta(b, d).error == NumericOverflow
  {
    assert Amount(b, AvailableCash) + Amount(d, AvailableCash) == b.available + d.available;
    assert Amount(b, ReservedCash) + Amount(d, ReservedCash) == b.reserved + d.reserved;
    assert Amount(b, UnsettledCash) + Amount(d, UnsettledCash) == b.unsettled + d.unsettled;
    assert Amount(b, DividendCash) + Amount(d, DividendCash) == b.dividends + d.dividends;
  }

  ghost predicate FoldsTo(initialCash: int, ledger: seq<LedgerEntry>, cutoff: int, r: Result<Balances>) {
    match r
    case Ok(b) => forall k: Bucket :: Amount(b, k) == FoldedAmount(initialCash, ledger, cutoff, k)
    case Err(e) => e == NumericOverflow
  }

  lemma FoldStep(initialCash: int, init: seq<LedgerEntry>, e: LedgerEntry, cutoff: int, before: Balances)
    requires FoldsTo(initialCash, init, cutoff, Ok(before)) && NonNegativeAt(initialCash, init + [e], cutoff)
    ensures FoldsTo(initialCash, init + [e], cutoff,
                    if e.effectiveAt > cutoff then Ok(before) else ApplyDelta(before, e.delta))
  {
    forall k: Bucket
      ensures FoldedAmount(initialCash, init + [e], cutoff, k)
           == FoldedAmount(initialCash, init, cutoff, k) + if e.effectiveAt <= cutoff then Amount(e.delta, k) else 0
    {
      SumAppend(init, e, UpTo(cutoff, In(k)));
    }
    DeltaApplies(before, e.delta);
    hide ApplyDelta;
    hide FoldedAmount;
    if e.effectiveAt <= cutoff {
      forall k: Bucket
        ensures Amount(before, k) + Amount(e.delta, k) >= 0
      {
        assert FoldedAmount(initialCash, init + [e], cutoff, k) >= 0;
      }
    }
  }

  /** A ledger no prefix of which folds below zero is refolded without ever lacking cash. */
  lemma {:induction false} RefoldNeverLacksCash(initialCash: int, ledger: seq<LedgerEntry>, cutoff: int)
    requires NeverNegative(initialCash, ledger)
    ensures FoldsTo(initialCash, ledger, cutoff, RefoldBalances(StartBalances(initialCash), ledger, cutoff))
  {
    if ledger == [] {
      forall k: Bucket
        ensures Amount(StartBalances(initialCash), k) == FoldedAmount(initialCash, [], cutoff, k)
      {
      }
    } else {
      var init, e := ledger[..|ledger| - 1], ledger[|ledger| - 1];
      PrefixNeverNegative(initialCash, ledger);
      RefoldNeverLacksCash(initialCash, init, cutoff);
      assert ledger[..|ledger|] == ledger && init + [e] == ledger;
      assert NonNegativeAt(initialCash, ledger[..|ledger|], cutoff);
      hide NonNegativeAt;
      hide FoldsTo;
      hide ApplyDelta;
      var before := RefoldBalances(StartBalances(initialCash), init, cutoff);
      if before.Ok? {
        FoldStep(initialCash, init, e, cutoff, before.value);
      } else {
        OverflowFolds(initialCash, init, ledger, cutoff, before.error);
      }
    }
  }

  lemma OverflowFolds(initialCash: int, init: seq<LedgerEntry>, ledger: seq<LedgerEntry>, cutoff: int, e: Error)
    requires FoldsTo(initialCash, init, cutoff, Err(e))
    ensures FoldsTo(initialCash, ledger, cutoff, Err(e))
  {
  }

  lemma PrefixNeverNegative(initialCash: int, ledger: seq<LedgerEntry>)
    requires NeverNegative(initialCash, ledger) && ledger != []
    ensures NeverNegative(initialCash, ledger[..|ledger| - 1])
  {
    hide NonNegativeAt;
    var init := ledger[..|ledger| - 1];
    forall n, cutoff | 0 <= n <= |init|
      ensures NonNegativeAt(initialCash, init[..n], cutoff)
    {
      assert init[..n] == ledger[..n];
      assert NonNegativeAt(initialCash, ledger[..n], cutoff);
    }
  }

  // ---------- Shares ----------

  lemma AddSharesRows(rows: seq<Position>, id: int, change: int)
    requires Distinct(rows)
    ensures Distinct(AddShares(rows, id, change))
    ensures forall i :: Held(AddShares(rows, id, change), i) == Held(rows, i) + if i == id then change else 0
  {
    var n := IndexOf(rows, id);
    forall i
      ensures Held(AddShares(rows, id, change), i) == Held(rows, i) + if i == id then change else 0
    {
      if n == |rows| {
        SumAppend(rows, Position(id, change, 0, 0), SharesOf(i));
      } else {
        SumUpdate(rows, n, rows[n].(quantity := rows[n].quantity + change), SharesOf(i));
      }
    }
  }

  /** One row per instrument, holding the sum of its movements by the cutoff. */
  lemma {:induction false} RefoldRowsAreSums(ledger: seq<LedgerEntry>, cutoff: int)
    ensures Distinct(RefoldRows(ledger, cutoff))
    ensures forall id :: Held(RefoldRows(ledger, cutoff), id) == Sum(ledger, UpTo(cutoff, SharesIn(id)))
  {
    if ledger != [] {
      var init, e := ledger[..|ledger| - 1], ledger[|ledger| - 1];
      RefoldRowsAreSums(init, cutoff);
      AddSharesRows(RefoldRows(init, cutoff), e.instrument, e.quantityDelta);
      hide AddShares;
      hide Distinct;
      assert init + [e] == ledger;
      forall id
        ensures Held(RefoldRows(ledger, cutoff), id) == Sum(ledger, UpTo(cutoff, SharesIn(id)))
      {
        SumAppend(init, e, UpTo(cutoff, SharesIn(id)));
      }
    }
  }

  lemma {:induction false} FilterHeld(rows: seq<Position>)
    requires Distinct(rows) && forall n :: 0 <= n < |rows| ==> rows[n].quantity >= 0
    ensures Distinct(Filter(rows, HasShares()))
    ensures forall p :: p in Filter(rows, HasShares()) ==> p in rows && p.quantity > 0
    ensures forall id :: Held(Filter(rows, HasShares()), id) == Held(rows, id)
  {
    if rows != [] {
      var init, last := rows[..|rows| - 1], rows[|rows| - 1];
      FilterHeld(init);
      var kept := Filter(init, HasShares());
      assert Filter(rows, HasShares()) == if last.quantity > 0 then kept + [last] else kept;
      assert init + [last] == rows;
      forall id
        ensures Held(Filter(rows, HasShares()), id) == Held(rows, id)
      {
        SumAppend(kept, last, SharesOf(id));
        SumAppend(init, last, SharesOf(id));
        assert Held(kept, id) == Held(init, id);
      }
      forall p | p in kept
        ensures p.instrument != last.instrument
      {
        var n :| 0 <= n < |init| && init[n] == p;
      }
    }
  }

  /** Folded movements that never go below zero give a holding list with exactly those quantities. */
  lemma RefoldedHoldings(ledger: seq<LedgerEntry>, cutoff: int)
    requires forall id :: Sum(ledger, UpTo(cutoff, SharesIn(id))) >= 0
    ensures var r := RefoldHoldings(ledger, cutoff);
      && r.Ok? && Distinct(r.value) && (forall n :: 0 <= n < |r.value| ==> r.value[n].quantity > 0)
      && (forall id :: Held(r.value, id) == Sum(ledger, UpTo(cutoff, SharesIn(id))))
  {
    RefoldRowsAreSums(ledger, cutoff);
    var rows := RefoldRows(ledger, cutoff);
    forall n | 0 <= n < |rows|
      ensures rows[n].quantity >= 0
    {
      RowTotals(rows, n);
      assert Held(rows, rows[n].instrument) == Sum(ledger, UpTo(cutoff, SharesIn(rows[n].instrument)));
    }
    hide Sum;
    FilterHeld(rows);
  }
}
