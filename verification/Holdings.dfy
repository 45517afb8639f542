/** Position rows: one row per instrument, and what each operation does to the shares held and reserved. */
module Holdings {
  import opened Outcomes
  import opened Money
  import opened Domain
  import opened Ledger
  import opened Sums
  import opened Lists

  function SharesOf(id: int): Position -> int {
    (p: Position) => if p.instrument == id then p.quantity else 0
  }

  function ReservedSharesOf(id: int): Position -> int {
    (p: Position) => if p.instrument == id then p.reservedQuantity else 0
  }

  function Held(positions: seq<Position>, id: int): int {
    Sum(positions, SharesOf(id))
  }

  function Reserved(positions: seq<Position>, id: int): int {
    Sum(positions, ReservedSharesOf(id))
  }

  predicate Distinct(positions: seq<Position>) {
    forall i, j :: 0 <= i < j < |positions| ==> positions[i].instrument != positions[j].instrument
  }

  /** Reserved shares are held, and a row without shares carries no cost. */
  predicate SoundRow(p: Position) {
    && 0 <= p.reservedQuantity <= p.quantity <= MAX_INT64
    && 0 <= p.costBasis <= MAX_INT64
    && (p.quantity == 0 ==> p.costBasis == 0)
  }

  predicate SoundRows(positions: seq<Position>) {
    && Distinct(positions)
    && forall k :: 0 <= k < |positions| ==> SoundRow(positions[k])
  }

  // ---------- One row per instrument ----------

  lemma {:induction false} OccurrencesOfRow(positions: seq<Position>, id: int)
    requires Distinct(positions)
    ensures Occurrences(positions, id) == if IndexOf(positions, id) < |positions| then 1 else 0
  {
    if positions != [] {
      var tail := positions[1..];
      OccurrencesOfRow(tail, id);
      assert IndexOf(tail, id) < |tail| ==> positions[IndexOf(tail, id) + 1].instrument == id;
    }
  }

  /** With one row per instrument, the totals of an instrument are those of its row. */
  lemma RowTotals(positions: seq<Position>, n: nat)
    requires Distinct(positions) && n < |positions|
    ensures Held(positions, positions[n].instrument) == positions[n].quantity
    ensures Reserved(positions, positions[n].instrument) == positions[n].reservedQuantity
    ensures IndexOf(positions, positions[n].instrument) == n
  {
    var id := positions[n].instrument;
    SumSplit(positions, n, SharesOf(id));
    SumSplit(positions, n, ReservedSharesOf(id));
    SumIsZero(positions[..n], SharesOf(id));
    SumIsZero(positions[..n], ReservedSharesOf(id));
    SumIsZero(positions[n + 1..], SharesOf(id));
    SumIsZero(positions[n + 1..], ReservedSharesOf(id));
  }

  lemma NoRowTotals(positions: seq<Position>, id: int)
    requires IndexOf(positions, id) == |positions|
    ensures Held(positions, id) == 0 && Reserved(positions, id) == 0
  {
    SumIsZero(positions, SharesOf(id));
    SumIsZero(positions, ReservedSharesOf(id));
  }

  lemma RowUpdate(positions: seq<Position>, n: nat, p: Position)
    requires SoundRows(positions) && n < |positions|
    requires p.instrument == positions[n].instrument && SoundRow(p)
    ensures SoundRows(positions[n := p])
    ensures forall id :: Held(positions[n := p], id) == Held(positions, id)
                           + if id == p.instrument then p.quantity - positions[n].quantity else 0
    ensures forall id :: Reserved(positions[n := p], id) == Reserved(positions, id)
                           + if id == p.instrument then p.reservedQuantity - positions[n].reservedQuantity else 0
  {
    forall id
      ensures Held(positions[n := p], id) == Held(positions, id)
                + if id == p.instrument then p.quantity - positions[n].quantity else 0
    {
      SumUpdate(positions, n, p, SharesOf(id));
    }
    forall id
      ensures Reserved(positions[n := p], id) == Reserved(positions, id)
                + if id == p.instrument then p.reservedQuantity - positions[n].reservedQuantity else 0
    {
      SumUpdate(positions, n, p, ReservedSharesOf(id));
    }
  }

  lemma NewRow(positions: seq<Position>, id: int)
    requires SoundRows(positions) && IndexOf(positions, id) == |positions|
    ensures var rows := positions + [Position(id, 0, 0, 0)];
      && SoundRows(rows)
      && (forall i :: Held(rows, i) == Held(positions, i))
      && (forall i :: Reserved(rows, i) == Reserved(positions, i))
  {
    var row := Position(id, 0, 0, 0);
    forall i
      ensures Held(positions + [row], i) == Held(positions, i)
      ensures Reserved(positions + [row], i) == Reserved(positions, i)
    {
      SumAppend(positions, row, SharesOf(i));
      SumAppend(positions, row, ReservedSharesOf(i));
    }
  }

  lemma DistinctPermuted(xs: seq<Position>, ys: seq<Position>)
    requires Distinct(xs) && multiset(xs) == multiset(ys)
    ensures Distinct(ys)
  {
    forall i, j | 0 <= i < j < |ys|
      ensures ys[i].instrument != ys[j].instrument
    {
      if ys[i].instrument == ys[j].instrument {
        var id := ys[i].instrument;
        CountRows(xs, id);
        assert Sum(xs, RowOf(id)) <= 1;
        SumPermuted(xs, ys, RowOf(id));
        SumSplit(ys, j, RowOf(id));
        TermWithinSum(ys[..j], i, RowOf(id));
        SumNonNegative(ys[j + 1..], RowOf(id));
      }
    }
  }

  function RowOf(id: int): Position -> int {
    (p: Position) => if p.instrument == id then 1 else 0
  }

  lemma {:induction false} CountRows(positions: seq<Position>, id: int)
    requires Distinct(positions)
    ensures 0 <= Sum(positions, RowOf(id)) <= 1
  {
    if positions != [] {
      var init, last := positions[..|positions| - 1], positions[|positions| - 1];
      CountRows(init, id);
      if last.instrument == id {
        SumIsZero(init, RowOf(id));
      }
    }
  }

  /** Sorting the rows changes no total. */
  lemma SortKeepsHoldings(positions: seq<Position>)
    requires SoundRows(positions)
    ensures SoundRows(SortPositions(positions))
    ensures forall id :: Held(SortPositions(positions), id) == Held(positions, id)
    ensures forall id :: Reserved(SortPositions(positions), id) == Reserved(positions, id)
  {
    var sorted := SortPositions(positions);
    SortPermutes(positions, ByInstrument());
    DistinctPermuted(positions, sorted);
    forall k | 0 <= k < |sorted|
      ensures SoundRow(sorted[k])
    {
      assert sorted[k] in multiset(positions);
    }
    forall id
      ensures Held(sorted, id) == Held(positions, id)
      ensures Reserved(sorted, id) == Reserved(positions, id)
    {
      SumPermuted(sorted, positions, SharesOf(id));
      SumPermuted(sorted, positions, ReservedSharesOf(id));
    }
  }

  // ---------- Reserving and releasing shares ----------

  function MoveReserved(positions: seq<Position>, n: nat, quantity: int): seq<Position>
    requires n < |positions|
  {
    positions[n := positions[n].(reservedQuantity := positions[n].reservedQuantity + quantity)]
  }

  lemma MoveOnRow(positions: seq<Position>, n: nat, change: int)
    requires Distinct(positions) && n < |positions|
    ensures MoveShares(positions, positions[n].instrument, change) == MoveReserved(positions, n, change)
  {
  }

  lemma ReserveOnRow(positions: seq<Position>, n: nat, quantity: int)
    requires Distinct(positions) && n < |positions|
    ensures ReserveShares(positions, positions[n].instrument, quantity)
         == if positions[n].quantity - positions[n].reservedQuantity < quantity then Err(InsufficientCash)
            else Ok(MoveReserved(positions, n, quantity))
  {
    MoveOnRow(positions, n, quantity);
    hide MoveShares;
    hide MoveReserved;
  }

  lemma ReleaseOnRow(positions: seq<Position>, n: nat, quantity: int)
    requires Distinct(positions) && n < |positions|
    ensures ReleaseShares(positions, positions[n].instrument, quantity)
         == if positions[n].reservedQuantity < quantity then Err(InvalidInput)
            else Ok(MoveReserved(positions, n, -quantity))
  {
    MoveOnRow(positions, n, -quantity);
    hide MoveShares;
    hide MoveReserved;
  }
}
