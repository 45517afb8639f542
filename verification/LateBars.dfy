/** When the opening of an order can turn up late: only with a bar that is published late. */
module LateBars {
  import opened Outcomes
  import opened Domain
  import opened Calendars
  import opened Lists
  import opened Versions
  import opened Snapshots
  import opened Replay

  function BarName(): Bar -> int {
    (b: Bar) => b.instrument
  }

  function BarDate(): Bar -> int {
    (b: Bar) => b.sessionDate
  }

  function OfDay(id: int, date: int): Bar -> bool {
    KeyAt(BarName(), BarDate(), id, date)
  }

  /** The bar of a name and a date that is selected at a cutoff. */
  function BarAt(bars: seq<Bar>, id: int, date: int, asOf: int): Option<Bar> {
    Pick(bars, BarKnown(asOf), OfDay(id, date), NewerBar())
  }

  lemma {:induction false} FirstOfAppend(bars: seq<Bar>, b: Bar, mine: Bar -> bool)
    ensures FirstOf(bars + [b], mine)
         == if FirstOf(bars, mine).Some? then FirstOf(bars, mine) else if mine(b) then Some(b) else None
  {
    if bars == [] {
      assert [] + [b] == [b] && [b][1..] == [];
    } else {
      assert (bars + [b])[1..] == bars[1..] + [b];
      FirstOfAppend(bars[1..], b, mine);
    }
  }

  lemma OneOfDay(bars: seq<Bar>, id: int, date: int)
    requires StrictlyOrdered(bars, BarOrder()) && bars != [] && OfDay(id, date)(bars[|bars| - 1])
    ensures FirstOf(bars[..|bars| - 1], OfDay(id, date)) == None
  {
    var init := bars[..|bars| - 1];
    forall k | 0 <= k < |init|
      ensures !OfDay(id, date)(init[k])
    {
      assert BarOrder()(bars[k], bars[|bars| - 1]) < 0;
    }
    NoneOf(init, OfDay(id, date));
  }

  /** In a list with one bar per name and date, the last of a day is the only one. */
  lemma {:induction false} OnlyBar(bars: seq<Bar>, id: int, date: int)
    requires StrictlyOrdered(bars, BarOrder())
    ensures var found := FirstOf(bars, OfDay(id, date));
      (id in BarsOn(bars, date) <==> found.Some?) && (found.Some? ==> BarsOn(bars, date)[id] == found.value)
  {
    if bars != [] {
      var init, b := bars[..|bars| - 1], bars[|bars| - 1];
      OnlyBar(init, id, date);
      if OfDay(id, date)(b) {
        OneOfDay(bars, id, date);
      }
      hide FirstOf;
      hide StrictlyOrdered;
      FirstOfAppend(init, b, OfDay(id, date));
      assert init + [b] == bars;
    }
  }

  /** Whether an order has its opening is decided by the one bar selected for its name and date. */
  lemma OpeningIsBar(source: Snapshot, t: int, o: Order)
    ensures var b := BarAt(source.bars, o.instrument, DateOf(o.targetOpenAt), t);
      HasOpening(SelectSnapshot(source, t), o) <==> b.Some? && Opened(b.value) && b.value.availableAt <= o.expiresAt
  {
    var bars, date := SelectSnapshot(source, t).bars, DateOf(o.targetOpenAt);
    LatestPicks(source.bars, BarKnown(t), BarOrder(), NewerBar(), BarName(), BarDate(), o.instrument, date);
    LatestOrdered(source.bars, BarKnown(t), BarOrder(), NewerBar(), BarName(), BarDate());
    OnlyBar(bars, o.instrument, date);
    hide Latest;
    hide Pick;
    hide FirstOf;
    hide BarsOn;
  }

  /** A bar of the name for a session, with an opening trade, that is published after the decision of the session and in
      time for the close of the next. */
  predicate LateBar(bars: seq<Bar>, id: int, session: Session, next: Session) {
    exists k :: 0 <= k < |bars| && bars[k].instrument == id && bars[k].sessionDate == DateOf(session.openAt)
                && Opened(bars[k])
                && DecisionTime(session) < bars[k].availableAt <= next.closeAt
  }

  /** An opening that was not there at the decision of its session and turns up later comes with such a bar. */
  lemma LateOpeningIsLateBar(source: Snapshot, session: Session, next: Session, late: int, o: Order)
    requires o.targetOpenAt == session.openAt && o.expiresAt <= next.closeAt && DecisionTime(session) <= late
    requires HasOpening(SelectSnapshot(source, late), o)
    requires !HasOpening(SelectSnapshot(source, DecisionTime(session)), o)
    ensures LateBar(source.bars, o.instrument, session, next)
  {
    var mine := OfDay(o.instrument, DateOf(o.targetOpenAt));
    OpeningIsBar(source, late, o);
    OpeningIsBar(source, DecisionTime(session), o);
    PickIsNewest(source.bars, BarKnown(late), mine, NewerBar());
    var b := BarAt(source.bars, o.instrument, DateOf(o.targetOpenAt), late).value;
    if b.availableAt <= DecisionTime(session) {
      PickIsEarlier(source.bars, BarKnown(DecisionTime(session)), BarKnown(late), mine, NewerBar());
    }
    hide SelectSnapshot;
    hide HasOpening;
    hide Pick;
    var k :| 0 <= k < |source.bars| && source.bars[k] == b;
  }
}
