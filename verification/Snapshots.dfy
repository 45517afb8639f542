/** Point-in-time market data: what was available at a cutoff, one version per key. */
module Snapshots {
  import opened Outcomes
  import opened Domain
  import opened Calendars
  import opened Lists
  import opened Versions

  const UNKNOWN_INDUSTRY: int := 0

  datatype Instrument = Instrument(id: int, isStock: bool, tradable: bool, industry: int)

  datatype Bar = Bar(
    instrument: int, sessionDate: int, availableAt: int, ingestedAt: int,
    open: int, high: int, low: int, close: int, volume: int, noOpeningTrade: bool)

  /** `series` stands for the instrument, concept, period, unit and currency of a fact. */
  datatype Fact = Fact(series: int, accession: int, availableAt: int, figure: int)

  datatype Snapshot = Snapshot(
    asOf: int, instruments: seq<Instrument>, bars: seq<Bar>, facts: seq<Fact>, actions: seq<CorporateAction>,
    calendar: Calendar)

  // ---------- Keys and versions ----------

  function Compare(a: int, b: int): int {
    a - b
  }

  function BarOrder(): (Bar, Bar) -> int {
    (a: Bar, b: Bar) => if a.instrument != b.instrument then Compare(a.instrument, b.instrument)
                        else Compare(a.sessionDate, b.sessionDate)
  }

  function NewerBar(): (Bar, Bar) -> bool {
    (a: Bar, b: Bar) => a.ingestedAt > b.ingestedAt
  }

  function FactOrder(): (Fact, Fact) -> int {
    (a: Fact, b: Fact) => Compare(a.series, b.series)
  }

  function NewerFact(): (Fact, Fact) -> bool {
    (a: Fact, b: Fact) =>
      a.availableAt > b.availableAt || (a.availableAt == b.availableAt && a.accession > b.accession)
  }

  function ActionOrder(): (CorporateAction, CorporateAction) -> int {
    (a: CorporateAction, b: CorporateAction) => Compare(a.id, b.id)
  }

  function NewerAction(): (CorporateAction, CorporateAction) -> bool {
    (a: CorporateAction, b: CorporateAction) => a.availableAt > b.availableAt || a.ingestedAt > b.ingestedAt
  }

  function BarKnown(asOf: int): Bar -> bool {
    (b: Bar) => b.availableAt <= asOf
  }

  function FactKnown(asOf: int): Fact -> bool {
    (f: Fact) => f.availableAt <= asOf
  }

  function ActionKnown(asOf: int): CorporateAction -> bool {
    (a: CorporateAction) => a.availableAt <= asOf
  }

  function ById(): (Instrument, Instrument) -> bool {
    (a: Instrument, b: Instrument) => a.id < b.id
  }

  function SelectSnapshot(input: Snapshot, asOf: int): Snapshot {
    Snapshot(
      asOf,
      Sort(input.instruments, ById()),
      Latest(input.bars, BarKnown(asOf), BarOrder(), NewerBar()),
      Latest(input.facts, FactKnown(asOf), FactOrder(), NewerFact()),
      Latest(input.actions, ActionKnown(asOf), ActionOrder(), NewerAction()),
      input.calendar)
  }

  // ---------- What selection means ----------

  /** The bars selected are known at the cutoff, strictly ordered by instrument and date, and cover every known
      bar by one of the same key that no known bar of that key was ingested after. */
  lemma SelectedBars(input: Snapshot, asOf: int)
    ensures var bars := SelectSnapshot(input, asOf).bars;
      && StrictlyOrdered(bars, BarOrder())
      && (forall b :: b in bars ==> b in input.bars && b.availableAt <= asOf)
      && (forall b :: b in input.bars && b.availableAt <= asOf ==>
            exists s :: s in bars && s.instrument == b.instrument && s.sessionDate == b.sessionDate
                        && b.ingestedAt <= s.ingestedAt)
  {
    var major, minor := (b: Bar) => b.instrument, (b: Bar) => b.sessionDate;
    var bars := SelectSnapshot(input, asOf).bars;
    LatestOrdered(input.bars, BarKnown(asOf), BarOrder(), NewerBar(), major, minor);
    forall b | b in bars
      ensures b in input.bars && b.availableAt <= asOf
    {
      LatestElements(input.bars, BarKnown(asOf), BarOrder(), NewerBar(), b);
    }
    forall b | b in input.bars && b.availableAt <= asOf
      ensures exists s :: s in bars && s.instrument == b.instrument && s.sessionDate == b.sessionDate
                          && b.ingestedAt <= s.ingestedAt
    {
      LatestCoversKeys(input.bars, BarKnown(asOf), BarOrder(), NewerBar(), major, minor, b);
      assert NoNewerIsTransitive(NewerBar());
      var s :| s in bars && BarOrder()(b, s) == 0 && !NewerBar()(b, s);
    }
  }

  /** The actions selected are known at the cutoff, one version per action, and every known action has one. */
  lemma SelectedActions(input: Snapshot, asOf: int)
    ensures var actions := SelectSnapshot(input, asOf).actions;
      && StrictlyOrdered(actions, ActionOrder())
      && (forall a :: a in actions ==> a in input.actions && a.availableAt <= asOf)
      && (forall a :: a in input.actions && a.availableAt <= asOf ==> Versioned(actions, a.id))
  {
    var major, minor := (x: CorporateAction) => x.id, (x: CorporateAction) => 0;
    var actions := SelectSnapshot(input, asOf).actions;
    LatestOrdered(input.actions, ActionKnown(asOf), ActionOrder(), NewerAction(), major, minor);
    forall a | a in actions
      ensures a in input.actions && a.availableAt <= asOf
    {
      LatestElements(input.actions, ActionKnown(asOf), ActionOrder(), NewerAction(), a);
    }
    forall a | a in input.actions && a.availableAt <= asOf
      ensures Versioned(actions, a.id)
    {
      LatestCoversKeys(input.actions, ActionKnown(asOf), ActionOrder(), NewerAction(), major, minor, a);
      var s :| s in actions && ActionOrder()(a, s) == 0;
    }
  }

  predicate Versioned(actions: seq<CorporateAction>, id: int) {
    exists s :: s in actions && s.id == id
  }

  /** All versions of an action say the same: only when they were published may differ. */
  predicate SameThroughout(actions: seq<CorporateAction>, id: int) {
    forall i, j :: 0 <= i < |actions| && 0 <= j < |actions| && actions[i].id == id && actions[j].id == id ==>
      SameActionEconomics(actions[i], actions[j])
  }

  /** The versions of an action were ingested in the order they were published, so that a later one supersedes it. */
  predicate InTurn(actions: seq<CorporateAction>, id: int) {
    forall i, j :: 0 <= i < |actions| && 0 <= j < |actions| && actions[i].id == id && actions[j].id == id
                   && actions[i].availableAt < actions[j].availableAt ==>
      actions[i].ingestedAt <= actions[j].ingestedAt
  }

  ghost predicate Coherent(actions: seq<CorporateAction>) {
    forall id :: SameThroughout(actions, id) || InTurn(actions, id)
  }

  predicate SelectedAs(actions: seq<CorporateAction>, a: CorporateAction) {
    exists s :: s in actions && s.id == a.id && SameActionEconomics(s, a)
  }

  function ActionId(): CorporateAction -> int {
    (a: CorporateAction) => a.id
  }

  function NoMinor(): CorporateAction -> int {
    (a: CorporateAction) => 0
  }

  lemma InTurnIsRanked(actions: seq<CorporateAction>, id: int)
    requires InTurn(actions, id)
    ensures Ranked(actions, KeyAt(ActionId(), NoMinor(), id, 0), NewerAction())
  {
    forall a, b | a in actions && b in actions && a.id == id && b.id == id && a.availableAt < b.availableAt
      ensures a.ingestedAt <= b.ingestedAt
    {
      var i, j :| 0 <= i < |actions| && actions[i] == a && 0 <= j < |actions| && actions[j] == b;
      assert actions[i].id == id && actions[j].id == id;
    }
  }

  /** The version of an action selected is the only one with its number, so it is the one picked. */
  lemma SelectedIsPicked(input: Snapshot, asOf: int, a: CorporateAction)
    ensures a in SelectSnapshot(input, asOf).actions
       <==> Pick(input.actions, ActionKnown(asOf), KeyAt(ActionId(), NoMinor(), a.id, 0), NewerAction()) == Some(a)
  {
    var actions, mine := SelectSnapshot(input, asOf).actions, KeyAt(ActionId(), NoMinor(), a.id, 0);
    LatestPicks(input.actions, ActionKnown(asOf), ActionOrder(), NewerAction(), ActionId(), NoMinor(), a.id, 0);
    LatestOrdered(input.actions, ActionKnown(asOf), ActionOrder(), NewerAction(), ActionId(), NoMinor());
    FirstOfIsThere(actions, mine);
    hide Latest;
    hide Pick;
    hide FirstOf;
  }

  /** A version selected later that was known before was already selected then, or one that says the same was. */
  lemma StillSelected(source: Snapshot, early: int, late: int, a: CorporateAction)
    requires Coherent(source.actions) && early <= late && a in SelectSnapshot(source, late).actions
    requires a.availableAt <= early
    ensures SelectedAs(SelectSnapshot(source, early).actions, a)
  {
    var before := SelectSnapshot(source, early).actions;
    SelectedActions(source, early);
    SelectedActions(source, late);
    if InTurn(source.actions, a.id) {
      SelectedIsPicked(source, early, a);
      SelectedIsPicked(source, late, a);
      InTurnIsRanked(source.actions, a.id);
      PickIsEarlier(source.actions, ActionKnown(early), ActionKnown(late), KeyAt(ActionId(), NoMinor(), a.id, 0),
                    NewerAction());
    } else {
      assert SameThroughout(source.actions, a.id);
      assert Versioned(before, a.id);
      var s :| s in before && s.id == a.id;
      var i, j :| 0 <= i < |source.actions| && source.actions[i] == s && 0 <= j < |source.actions|
                  && source.actions[j] == a;
      assert SameActionEconomics(source.actions[i], source.actions[j]);
    }
  }

  // ---------- The past does not depend on the future ----------

  /** A data source cut down to what was available by an instant. */
  function KnownBy(source: Snapshot, asOf: int): Snapshot {
    source.(bars := Filter(source.bars, BarKnown(asOf)),
            facts := Filter(source.facts, FactKnown(asOf)),
            actions := Filter(source.actions, ActionKnown(asOf)))
  }

  lemma SelectionIsCausal(source: Snapshot, asOf: int, later: int)
    requires asOf <= later
    ensures SelectSnapshot(source, asOf) == SelectSnapshot(KnownBy(source, later), asOf)
  {
    LatestIgnoresHidden(source.bars, BarKnown(asOf), BarKnown(later), BarOrder(), NewerBar());
    LatestIgnoresHidden(source.facts, FactKnown(asOf), FactKnown(later), FactOrder(), NewerFact());
    LatestIgnoresHidden(source.actions, ActionKnown(asOf), ActionKnown(later), ActionOrder(), NewerAction());
  }

  // ---------- Quotes ----------

  /** Closing prices of a session, the last bar of an instrument winning, over the prices given. */
  function ClosingPrices(bars: seq<Bar>, asOf: int, date: int): map<int, int> {
    if bars == [] then map[]
    else
      var b := bars[|bars| - 1];
      var prices := ClosingPrices(bars[..|bars| - 1], asOf, date);
      if b.availableAt <= asOf && b.sessionDate == date && b.close > 0 then prices[b.instrument := b.close] else prices
  }

  function InstrumentsById(instruments: seq<Instrument>): map<int, Instrument> {
    if instruments == [] then map[]
    else
      var i := instruments[|instruments| - 1];
      InstrumentsById(instruments[..|instruments| - 1])[i.id := i]
  }

  /** The prices an order or a portfolio is valued at: the latest completed session's closes, then the overrides. */
  function Quotes(s: Snapshot, overrides: map<int, int>): Result<map<int, int>> {
    var latest :- LatestCompleted(s.calendar, s.asOf);
    if exists id :: id in overrides && overrides[id] <= 0 then Err(InvalidInput)
    else Ok(ClosingPrices(s.bars, s.asOf, latest.date) + overrides)
  }

  lemma {:induction false} ClosingPricesArePositive(bars: seq<Bar>, asOf: int, date: int)
    ensures forall id :: id in ClosingPrices(bars, asOf, date) ==> ClosingPrices(bars, asOf, date)[id] > 0
  {
    if bars != [] {
      ClosingPricesArePositive(bars[..|bars| - 1], asOf, date);
    }
  }

  lemma QuotesArePositive(s: Snapshot, overrides: map<int, int>)
    requires Quotes(s, overrides).Ok?
    ensures forall id :: id in Quotes(s, overrides).value ==> Quotes(s, overrides).value[id] > 0
  {
    ClosingPricesArePositive(s.bars, s.asOf, LatestCompleted(s.calendar, s.asOf).value.date);
  }
}
