/** Percentile ranks: equal values share the middle of the ranks they span. */
module Percentiles {
  import opened Outcomes
  import opened Lists
  import opened Sums

  datatype Value = Finite(figure: real) | NotFinite

  datatype Row = Row(figure: real, index: nat)

  // ---------- The counting definition ----------

  function IsSmaller(v: real): real -> int {
    (u: real) => if u < v then 1 else 0
  }

  function IsSame(v: real): real -> int {
    (u: real) => if u == v then 1 else 0
  }

  /** 100 (#smaller + (#equal - 1) / 2) / (n - 1), mirrored when lower is better. */
  function Percentile(figures: seq<real>, v: real, higherIsBetter: bool): real
    requires |figures| >= 2
  {
    var rank := Sum(figures, IsSmaller(v)) as real + (Sum(figures, IsSame(v)) - 1) as real / 2.0;
    var score := rank / (|figures| - 1) as real * 100.0;
    if higherIsBetter then score else 100.0 - score
  }

  predicate AllFinite(values: seq<Value>) {
    forall i :: 0 <= i < |values| ==> values[i].Finite?
  }

  function Figures(values: seq<Value>): seq<real>
    requires AllFinite(values)
  {
    seq(|values|, i requires 0 <= i < |values| => values[i].figure)
  }

  // ---------- Sorted rows ----------

  predicate SortedRows(rows: seq<Row>) {
    forall i, j :: 0 <= i < j < |rows| ==> rows[i].figure <= rows[j].figure
  }

  function Rows(figures: seq<real>): seq<Row> {
    seq(|figures|, i requires 0 <= i < |figures| => Row(figures[i], i))
  }

  function Of(f: real -> int): Row -> int {
    (r: Row) => f(r.figure)
  }

  lemma {:induction false} RowsCountFigures(figures: seq<real>, f: real -> int)
    ensures Sum(Rows(figures), Of(f)) == Sum(figures, f)
  {
    if figures != [] {
      var init := figures[..|figures| - 1];
      RowsCountFigures(init, f);
      assert Rows(figures) == Rows(init) + [Row(figures[|figures| - 1], |figures| - 1)];
    }
  }

  /** In sorted rows the values below a run of equals are the rows before it, and its equals are the run. */
  lemma RunCounts(rows: seq<Row>, start: nat, end: nat, v: real)
    requires SortedRows(rows) && start < end <= |rows|
    requires forall k :: start <= k < end ==> rows[k].figure == v
    requires forall k :: 0 <= k < start ==> rows[k].figure < v
    requires forall k :: end <= k < |rows| ==> rows[k].figure > v
    ensures Sum(rows, Of(IsSmaller(v))) == start
    ensures Sum(rows, Of(IsSame(v))) == end - start
  {
    var before, run, after := rows[..start], rows[start..end], rows[end..];
    SumOfThree(rows, start, end, Of(IsSmaller(v)));
    SumOfThree(rows, start, end, Of(IsSame(v)));
    hide Sum;
    SumOfOnes(before, Of(IsSmaller(v)));
    SumIsZero(run, Of(IsSmaller(v)));
    SumIsZero(after, Of(IsSmaller(v)));
    SumIsZero(before, Of(IsSame(v)));
    SumOfOnes(run, Of(IsSame(v)));
    SumIsZero(after, Of(IsSame(v)));
  }

  lemma SumOfThree(rows: seq<Row>, start: nat, end: nat, f: Row -> int)
    requires start <= end <= |rows|
    ensures Sum(rows, f) == Sum(rows[..start], f) + Sum(rows[start..end], f) + Sum(rows[end..], f)
  {
    assert rows == rows[..start] + rows[start..end] + rows[end..];
    SumConcat(rows[..start] + rows[start..end], rows[end..], f);
    SumConcat(rows[..start], rows[start..end], f);
  }

  lemma {:induction false} SumOfOnes(rows: seq<Row>, f: Row -> int)
    requires forall r :: r in rows ==> f(r) == 1
    ensures Sum(rows, f) == |rows|
  {
    if rows != [] {
      SumOfOnes(rows[..|rows| - 1], f);
    }
  }

  lemma RunScore(figures: seq<real>, rows: seq<Row>, start: nat, end: nat, higherIsBetter: bool)
    requires |figures| >= 2 && multiset(rows) == multiset(Rows(figures)) && SortedRows(rows)
    requires start < end <= |rows| && forall k :: start <= k < end ==> rows[k].figure == rows[start].figure
    requires forall k :: 0 <= k < start ==> rows[k].figure < rows[start].figure
    requires end < |rows| ==> rows[end].figure != rows[start].figure
    ensures var score := (start + end - 1) as real / 2.0 / (|figures| - 1) as real * 100.0;
      Percentile(figures, rows[start].figure, higherIsBetter) == if higherIsBetter then score else 100.0 - score
  {
    var v := rows[start].figure;
    forall k | end <= k < |rows|
      ensures rows[k].figure > v
    {
      assert rows[start].figure <= rows[end].figure <= rows[k].figure;
    }
    RunCounts(rows, start, end, v);
    SumPermuted(rows, Rows(figures), Of(IsSmaller(v)));
    SumPermuted(rows, Rows(figures), Of(IsSame(v)));
    RowsCountFigures(figures, IsSmaller(v));
    RowsCountFigures(figures, IsSame(v));
    hide Sum;
  }

  function ByFigure(): (Row, Row) -> bool {
    (a: Row, b: Row) => a.figure < b.figure
  }

  lemma {:induction false} InsertKeepsSorted(x: Row, rows: seq<Row>)
    requires SortedRows(rows)
    ensures SortedRows(Insert(x, rows, ByFigure()))
  {
    if rows != [] && !(x.figure < rows[0].figure) {
      var rest := Insert(x, rows[1..], ByFigure());
      InsertKeepsSorted(x, rows[1..]);
      forall k | 0 <= k < |rest|
        ensures rows[0].figure <= rest[k].figure
      {
        InsertElements(x, rows[1..], ByFigure(), rest[k]);
      }
    }
  }

  lemma {:induction false} SortSorts(rows: seq<Row>)
    ensures SortedRows(Sort(rows, ByFigure()))
  {
    if rows != [] {
      SortSorts(rows[..|rows| - 1]);
      InsertKeepsSorted(rows[|rows| - 1], Sort(rows[..|rows| - 1], ByFigure()));
    }
  }

  /** Some sorted order of the rows; nothing is promised of the order of equal figures. */
  method SortRows(figures: seq<real>) returns (rows: seq<Row>)
    ensures multiset(rows) == multiset(Rows(figures)) && SortedRows(rows)
  {
    rows := Sort(Rows(figures), ByFigure());
    SortPermutes(Rows(figures), ByFigure());
    SortSorts(Rows(figures));
  }

  lemma RowsAreIndexed(figures: seq<real>, rows: seq<Row>)
    requires multiset(rows) == multiset(Rows(figures))
    ensures |rows| == |figures|
    ensures forall k :: 0 <= k < |rows| ==> rows[k].index < |figures| && figures[rows[k].index] == rows[k].figure
    ensures forall i :: 0 <= i < |figures| ==> Row(figures[i], i) in rows
    ensures forall j, k :: 0 <= j < k < |rows| ==> rows[j].index != rows[k].index
  {
    assert |multiset(rows)| == |rows| && |multiset(Rows(figures))| == |Rows(figures)|;
    forall k | 0 <= k < |rows|
      ensures rows[k].index < |figures| && figures[rows[k].index] == rows[k].figure
    {
      assert rows[k] in multiset(Rows(figures));
    }
    forall i | 0 <= i < |figures|
      ensures Row(figures[i], i) in rows
    {
      assert Rows(figures)[i] in multiset(rows);
    }
    forall j, k | 0 <= j < k < |rows|
      ensures rows[j].index != rows[k].index
    {
      if rows[j].index == rows[k].index {
        IndexOnce(figures, rows[j].index);
        SumPermuted(rows, Rows(figures), HasIndex(rows[j].index));
        SumSplit(rows, k, HasIndex(rows[j].index));
        TermWithinSum(rows[..k], j, HasIndex(rows[j].index));
        SumNonNegative(rows[k + 1..], HasIndex(rows[j].index));
      }
    }
  }

  function HasIndex(i: nat): Row -> int {
    (r: Row) => if r.index == i then 1 else 0
  }

  lemma {:induction false} IndexOnce(figures: seq<real>, i: nat)
    ensures Sum(Rows(figures), HasIndex(i)) <= 1
    ensures i >= |figures| ==> Sum(Rows(figures), HasIndex(i)) == 0
  {
    if figures != [] {
      IndexOnce(figures[..|figures| - 1], i);
      assert Rows(figures) == Rows(figures[..|figures| - 1]) + [Row(figures[|figures| - 1], |figures| - 1)];
    }
  }

  /** Ranks by runs of equal figures over any sorted order, and finds the counting definition. */
  method RankPercentiles(values: seq<Value>, higherIsBetter: bool) returns (r: Result<seq<real>>)
    ensures |values| < 2 ==> r == Err(InsufficientUniverse)
    ensures |values| >= 2 && !AllFinite(values) ==> r == Err(FactorUnavailable)
    ensures |values| >= 2 && AllFinite(values) ==>
      && r.Ok? && |r.value| == |values|
      && forall i :: 0 <= i < |values| ==> r.value[i] == Percentile(Figures(values), values[i].figure, higherIsBetter)
  {
    if |values| < 2 {
      return Err(InsufficientUniverse);
    }
    for i := 0 to |values|
      invariant forall k :: 0 <= k < i ==> values[k].Finite?
    {
      if values[i].NotFinite? {
        return Err(FactorUnavailable);
      }
    }
    var figures := Figures(values);
    var rows := SortRows(figures);
    var out := FillRanks(figures, rows, higherIsBetter);
    r := Ok(out);
  }

  /** Walks the runs of equal figures and gives each of its rows the middle of the ranks the run spans. */
  method FillRanks(figures: seq<real>, rows: seq<Row>, higherIsBetter: bool) returns (ranks: seq<real>)
    requires |figures| >= 2 && multiset(rows) == multiset(Rows(figures)) && SortedRows(rows)
    ensures |ranks| == |figures|
    ensures forall i :: 0 <= i < |figures| ==> ranks[i] == Percentile(figures, figures[i], higherIsBetter)
  {
    hide Percentile;
    RowsAreIndexed(figures, rows);
    hide Rows;
    var out := new real[|figures|](i => 0.0);
    var start := 0;
    while start < |rows|
      invariant 0 <= start <= |rows|
      invariant 0 < start < |rows| ==> rows[start - 1].figure < rows[start].figure
      invariant forall k :: 0 <= k < start ==> out[rows[k].index] == Percentile(figures, rows[k].figure, higherIsBetter)
    {
      var end := start + 1;
      while end < |rows| && rows[end].figure == rows[start].figure
        invariant start < end <= |rows|
        invariant forall k :: start <= k < end ==> rows[k].figure == rows[start].figure
      {
        end := end + 1;
      }
      var score := (start + end - 1) as real / 2.0 / (|rows| - 1) as real * 100.0;
      if !higherIsBetter {
        score := 100.0 - score;
      }
      RunScore(figures, rows, start, end, higherIsBetter);
      for k := start to end
        invariant forall j :: 0 <= j < k ==> out[rows[j].index] == Percentile(figures, rows[j].figure, higherIsBetter)
      {
        out[rows[k].index] := score;
      }
      start := end;
    }
    forall i | 0 <= i < |figures|
      ensures out[i] == Percentile(figures, figures[i], higherIsBetter)
    {
      var k :| 0 <= k < |rows| && rows[k] == Row(figures[i], i);
    }
    ranks := out[..];
  }

  // ---------- What the ranks mean ----------

  /** Twice the figures below plus the equal ones. */
  function Share(v: real): real -> int {
    (u: real) => if u < v then 2 else if u == v then 1 else 0
  }

  function Points(figures: seq<real>): real -> int {
    (v: real) => Sum(figures, Share(v))
  }

  lemma {:induction false} PointsCount(figures: seq<real>, v: real)
    ensures Points(figures)(v) == 2 * Sum(figures, IsSmaller(v)) + Sum(figures, IsSame(v))
  {
    if figures != [] {
      PointsCount(figures[..|figures| - 1], v);
    }
  }

  /** Points a new figure takes from, and gives to, the figures already there. */
  lemma {:induction false} Exchanged(figures: seq<real>, others: seq<real>, x: real)
    ensures Sum(figures, Points(others + [x])) + Sum(figures, Share(x)) == Sum(figures, Points(others)) + 2 * |figures|
  {
    if figures != [] {
      var init, v := figures[..|figures| - 1], figures[|figures| - 1];
      Exchanged(init, others, x);
      SumAppend(others, x, Share(v));
    }
  }

  /** Over all figures the points add up to the square of their number: every pair shares two. */
  lemma {:induction false} PointsTotal(figures: seq<real>)
    ensures Sum(figures, Points(figures)) == |figures| * |figures|
  {
    if figures != [] {
      var init, x := figures[..|figures| - 1], figures[|figures| - 1];
      PointsTotal(init);
      assert figures == init + [x];
      SumAppend(init, x, Points(figures));
      SumAppend(init, x, Share(x));
      Exchanged(init, init, x);
    }
  }

  function Total(xs: seq<real>): real {
    if xs == [] then 0.0 else Total(xs[..|xs| - 1]) + xs[|xs| - 1]
  }

  function Ranks(figures: seq<real>, higherIsBetter: bool): seq<real>
    requires |figures| >= 2
  {
    seq(|figures|, i requires 0 <= i < |figures| => Percentile(figures, figures[i], higherIsBetter))
  }

  /** Points less one each, as a share of fifty per rank below the top. */
  function FromPoints(points: int, n: int): real
    requires n > 1
  {
    (points - 1) as real * 50.0 / (n - 1) as real
  }

  lemma RankIsShare(figures: seq<real>, v: real)
    requires |figures| >= 2
    ensures Percentile(figures, v, true) == FromPoints(Points(figures)(v), |figures|)
    ensures Percentile(figures, v, false) == 100.0 - FromPoints(Points(figures)(v), |figures|)
  {
    PointsCount(figures, v);
    RankFromPoints(Sum(figures, IsSmaller(v)), Sum(figures, IsSame(v)), Points(figures)(v), (|figures| - 1) as real);
    hide Sum;
  }

  lemma {:induction false} RanksTotal(figures: seq<real>, higherIsBetter: bool, k: nat)
    requires |figures| >= 2 && k <= |figures|
    ensures var points := (Sum(figures[..k], Points(figures)) - k) as real * 50.0 / (|figures| - 1) as real;
      Total(Ranks(figures, higherIsBetter)[..k]) == if higherIsBetter then points else 100.0 * k as real - points
  {
    hide Percentile;
    if k == 0 {
      assert figures[..0] == [] && Ranks(figures, higherIsBetter)[..0] == [];
    } else {
      RanksTotal(figures, higherIsBetter, k - 1);
      var v, ranks := figures[k - 1], Ranks(figures, higherIsBetter);
      assert figures[..k] == figures[..k - 1] + [v];
      SumAppend(figures[..k - 1], v, Points(figures));
      hide Sum;
      assert ranks[..k][..k - 1] == ranks[..k - 1];
      RankIsShare(figures, v);
      ShareAdds((Sum(figures[..k - 1], Points(figures)) - (k - 1)) as real, (Points(figures)(v) - 1) as real,
                (|figures| - 1) as real);
    }
  }

  lemma RankFromPoints(smaller: int, same: int, points: int, n: real)
    requires points == 2 * smaller + same && n > 0.0
    ensures (smaller as real + (same - 1) as real / 2.0) / n * 100.0 == (points - 1) as real * 50.0 / n
  {
    assert smaller as real + (same - 1) as real / 2.0 == (points - 1) as real / 2.0;
  }

  lemma ShareAdds(a: real, b: real, n: real)
    requires n > 0.0
    ensures a * 50.0 / n + b * 50.0 / n == (a + b) * 50.0 / n
  {
  }

  /** The ranks always average exactly fifty. */
  lemma RanksAverageFifty(figures: seq<real>, higherIsBetter: bool)
    requires |figures| >= 2
    ensures Total(Ranks(figures, higherIsBetter)) == 50.0 * |figures| as real
  {
    var n := |figures|;
    RanksTotal(figures, higherIsBetter, n);
    PointsTotal(figures);
    assert figures[..n] == figures && Ranks(figures, higherIsBetter)[..n] == Ranks(figures, higherIsBetter);
    assert n * n - n == n * (n - 1);
    Cancels(n, n - 1);
  }

  lemma Cancels(a: int, b: int)
    requires b > 0
    ensures (a * b) as real * 50.0 / b as real == 50.0 * a as real
  {
    assert (a * b) as real == a as real * b as real;
    assert a as real * b as real * 50.0 == (50.0 * a as real) * b as real;
  }

  /** A larger figure ranks strictly higher, and equal figures rank alike. */
  lemma RanksFollowFigures(figures: seq<real>, u: real, v: real)
    requires |figures| >= 2 && u in figures && v in figures && u < v
    ensures Percentile(figures, u, true) < Percentile(figures, v, true)
    ensures Percentile(figures, u, false) > Percentile(figures, v, false)
  {
    PointsGrow(figures, u, v);
    RankIsShare(figures, u);
    RankIsShare(figures, v);
    hide Percentile;
    hide Sum;
    SmallerQuotient((Points(figures)(u) - 1) as real * 50.0, (Points(figures)(v) - 1) as real * 50.0,
                    (|figures| - 1) as real);
  }

  lemma SmallerQuotient(a: real, b: real, n: real)
    requires a < b && n > 0.0
    ensures a / n < b / n
  {
  }

  lemma PointsGrow(figures: seq<real>, u: real, v: real)
    requires u in figures && u < v
    ensures Points(figures)(u) < Points(figures)(v)
  {
    var k :| 0 <= k < |figures| && figures[k] == u;
    SumSplit(figures, k, Share(u));
    SumSplit(figures, k, Share(v));
    SumMonotone(figures[..k], Share(u), Share(v));
    SumMonotone(figures[k + 1..], Share(u), Share(v));
  }
}
