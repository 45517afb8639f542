// The volume the fills of a live account may take: when commands come in the order of time and a date has one opening,
// all that is filled for an opening date and a name stays within the capacity of every order stored for it.
module LiveCapacity {
  import opened Outcomes
  import opened Money
  import opened Sizing
  import opened Domain
  import opened Calendars
  import opened Lists
  import opened Sums
  import opened Ledger
  import opened Snapshots
  import opened Risk
  import opened Rebalance
  import opened Execution
  import Volumes
  import opened Live
  import opened LiveReserves
  import opened LiveHistory

  // ---------- New orders ----------

  const NO_DATA := Snapshot(0, [], [], [], [], EMPTY_CALENDAR)

  function Given(data: Result<Snapshot>): Snapshot {
    match data
    case Ok(d) => d
    case Err(_) => NO_DATA
  }

  /** The data a command may size and target an order by. */
  function DataOf(c: Command): Snapshot {
    match c
    case Place(data, _, _, _) => Given(data)
    case Evaluate(data, _, _) => data
    case _ => NO_DATA
  }

  function SessionsOf(c: Command): seq<Session> {
    DataOf(c).calendar.sessions
  }

  /** The capacity of an order is that of the volume some bars show for its name. */
  predicate FromVolume(bars: seq<Bar>, o: Order) {
    PreviousVolumeCapacity(Filter(bars, Replay.OfInstrument(o.instrument)), o.targetOpenAt) == Ok(o.capacity)
  }

  predicate OpensIn(sessions: seq<Session>, t: int) {
    exists k :: 0 <= k < |sessions| && sessions[k].openAt == t
  }

  /** An order for an opening still to come, sized by the volume known. */
  predicate Ahead(o: Order, data: Snapshot, now: int) {
    && o.capacity >= 0 && now < o.targetOpenAt && OpensIn(data.calendar.sessions, o.targetOpenAt)
    && FromVolume(data.bars, o)
  }

  /** A command that stores new orders fills none, and its orders are for openings still to come. */
  ghost predicate Adds(s: Store, t: Store, data: Snapshot, now: int) {
    && |s.orders| <= |t.orders|
    && (|t.orders| > |s.orders| ==> t.fills == s.fills)
    && forall n :: |s.orders| <= n < |t.orders| ==> Ahead(t.orders[n], data, now)
  }

  lemma ContinuingAdds(s: Store, t: Store, data: Snapshot, now: int)
    requires Continues(s, t)
    ensures Adds(s, t, data, now)
  {
    hide Grows;
    hide FillsGrow;
  }

  lemma ReserveAdds(s: Store, batch: seq<Order>, data: Snapshot, now: int)
    requires forall n :: 0 <= n < |batch| ==> Ahead(batch[n], data, now)
    ensures Adds(s, Reserve(s, batch).After(s), data, now)
  {
    hide ReserveOrders;
    hide Ahead;
    if batch != [] && ReserveOrders(s.account, s.positions, batch).Ok? && InsertOrders(s, batch).Ok? {
      InsertedOrders(s, batch);
      var t, entries := InsertOrders(s, batch).value, ReserveOrders(s.account, s.positions, batch).value.entries;
      if InsertLedger(t, entries).Ok? {
        InsertedEntries(t, entries);
      }
      hide InsertOrders;
      hide InsertLedger;
    }
  }

  lemma NextIsAhead(sessions: seq<Session>, after: int)
    ensures var next := EarliestAfter(sessions, after);
      next.Some? ==> next.value.openAt > after && OpensIn(sessions, next.value.openAt)
  {
    EarliestAfterIsEarliest(sessions, after);
    var next := EarliestAfter(sessions, after);
    if next.Some? {
      var k :| 0 <= k < |sessions| && sessions[k] == next.value;
    }
  }

  lemma PlacedIsAhead(s: Store, data: Snapshot, now: int, peak: int, r: PlaceRequest, quantity: int)
    requires OrderToPlace(s, data, now, peak, r, quantity).Ok?
    ensures Ahead(OrderToPlace(s, data, now, peak, r, quantity).value, data, now)
  {
    hide LatestCompleted;
    hide PreviousVolumeCapacity;
    hide ComputeNAV;
    hide ValidateOrder;
    hide CloseOn;
    hide Filter;
    hide ListPending;
    hide ReservationCost;
    hide SettlementKnown;
    NextIsAhead(data.calendar.sessions, now);
  }

  lemma SizedIsAhead(s: Store, data: Snapshot, date: int, target: Session, expiresAt: int, now: int, p: PlannedOrder,
                     cash: int, id: OrderId)
    requires SizeLive(s, data, date, target, expiresAt, now, p, cash, id).Ok?
    requires now < target.openAt && OpensIn(data.calendar.sessions, target.openAt)
    ensures var o := SizeLive(s, data, date, target, expiresAt, now, p, cash, id).value;
      o.Some? ==> Ahead(o.value, data, now)
  {
    CapacityIsNonNegative(Filter(data.bars, Replay.OfInstrument(p.instrument)), target.openAt);
    hide PreviousVolumeCapacity;
    hide CloseOn;
    hide Filter;
    hide ReservationCost;
    hide SizeToCash;
    hide OpensIn;
  }

  lemma {:induction false} BatchIsAhead(s: Store, data: Snapshot, date: int, target: Session, expiresAt: int, now: int,
                                        planned: seq<PlannedOrder>, n: nat, newId: nat -> OrderId)
    requires n <= |planned| && SizeBatch(s, data, date, target, expiresAt, now, planned, n, newId).Ok?
    requires now < target.openAt && OpensIn(data.calendar.sessions, target.openAt)
    ensures var batch := SizeBatch(s, data, date, target, expiresAt, now, planned, n, newId).value.0;
      forall k :: 0 <= k < |batch| ==> Ahead(batch[k], data, now)
  {
    hide SizeLive;
    hide Ahead;
    if n > 0 {
      BatchIsAhead(s, data, date, target, expiresAt, now, planned, n - 1, newId);
      var cash := SizeBatch(s, data, date, target, expiresAt, now, planned, n - 1, newId).value.1;
      SizedIsAhead(s, data, date, target, expiresAt, now, planned[n - 1], cash, newId(n - 1));
    }
  }

  lemma IssueAdds(s: Store, data: Snapshot, run: EvaluationRun, target: Session, now: int, planned: seq<PlannedOrder>)
    requires now < target.openAt && OpensIn(data.calendar.sessions, target.openAt)
    ensures Adds(s, IssueBatch(s, data, run, target, now, planned).After(s), data, now)
  {
    hide SizeBatch;
    hide Reserve;
    hide NextSession;
    hide NextSettlement;
    hide Ahead;
    hide OpensIn;
    var following := NextSession(data.calendar, target.closeAt);
    if following.Ok? {
      var batch := SizeBatch(s, data, run.date, target, following.value.closeAt, now, planned, |planned|, run.newId);
      if batch.Ok? {
        BatchIsAhead(s, data, run.date, target, following.value.closeAt, now, planned, |planned|, run.newId);
        ReserveAdds(s, batch.value.0, data, now);
      }
    }
  }

  lemma EvaluateAdds(s: Store, data: Snapshot, now: int, run: EvaluationRun)
    ensures Adds(s, EvaluateAccount(s, data, now, run).After(s), data, now)
  {
    hide PauseAutomation;
    hide IssueBatch;
    hide BuildRebalance;
    hide ComputeNAV;
    hide ListPending;
    hide SessionAmong;
    hide Ahead;
    hide OpensIn;
    var session := SessionOn(data.calendar, run.date);
    if session.Ok? {
      NextIsAhead(data.calendar.sessions, session.value.closeAt);
      var target := NextSession(data.calendar, session.value.closeAt);
      var nav := ComputeNAV(s.account, s.positions, data, map[]);
      if target.Ok? && nav.Ok? && MayIssue(s, run, target.value, now) {
        var plan := BuildRebalance(LivePlanInput(s, data, run, target.value, nav.value));
        PauseExtends(s, now);
        ContinuingAdds(s, PauseAutomation(s, now).After(s), data, now);
        if plan.Ok? {
          IssueAdds(s, data, run, target.value, now, plan.value.orders);
        }
      }
      hide MayIssue;
    }
  }

  lemma PlaceAdds(s: Store, data: Result<Snapshot>, now: int, peak: int, r: PlaceRequest)
    ensures Adds(s, PlaceOrder(s, data, now, peak, r).After(s), Given(data), now)
  {
    hide OrderToPlace;
    hide Reserve;
    hide Ahead;
    if data.Ok? && r.quantity.Ok? && OrderToPlace(s, data.value, now, peak, r, r.quantity.value).Ok? {
      PlacedIsAhead(s, data.value, now, peak, r, r.quantity.value);
      ReserveAdds(s, [OrderToPlace(s, data.value, now, peak, r, r.quantity.value).value], data.value, now);
    }
  }

  lemma RunAdds(s: Store, c: Command)
    ensures Adds(s, Run(s, c).After(s), DataOf(c), c.now)
  {
    hide Adds;
    hide Continues;
    hide PlaceOrder;
    hide CancelOrder;
    hide ConfigureAutomation;
    hide AdoptConfig;
    hide EvaluateAccount;
    hide ExecuteOrders;
    hide ReconcileAccount;
    match c
    case Place(data, now, peak, r) => PlaceAdds(s, data, now, peak, r);
    case Cancel(now, id, expected) =>
      CancelExtends(s, now, id, expected);
      ContinuingAdds(s, Run(s, c).After(s), NO_DATA, now);
    case Configure(data, now, r) =>
      ConfigureExtends(s, data, now, r);
      ContinuingAdds(s, Run(s, c).After(s), NO_DATA, now);
    case Adopt(now) =>
      AdoptExtends(s, now);
      ContinuingAdds(s, Run(s, c).After(s), NO_DATA, now);
    case Evaluate(data, now, run) => EvaluateAdds(s, data, now, run);
    case Execute(data, now, peak, date) =>
      ExecuteExtends(s, data, peak, now, date);
      ContinuingAdds(s, Run(s, c).After(s), NO_DATA, now);
    case Reconcile(data, universe, through, now) =>
      ReconcileExtends(s, data, universe, through, now);
      ContinuingAdds(s, Run(s, c).After(s), NO_DATA, now);
  }

  // ---------- Capacity ----------

  /** Every order is for one of these openings, every fill was made at one, and no order is filled beyond its
      capacity. */
  ghost predicate CapacityKept(s: Store, openings: set<int>) {
    && (forall n :: 0 <= n < |s.orders| ==> s.orders[n].targetOpenAt in openings)
    && (forall i :: 0 <= i < |s.fills| ==> AtAnOpening(s.orders, s.fills[i]))
    && (forall n :: 0 <= n < |s.orders| ==> FilledFor(s.fills, s.orders[n]) <= s.orders[n].capacity)
  }

  /** No two openings fall on one date. */
  predicate OnePerDate(openings: set<int>) {
    forall a, b :: a in openings && b in openings && DateOf(a) == DateOf(b) ==> a == b
  }

  /** A command that comes after every fill recorded so far, about known openings. */
  predicate Timely(s: Store, c: Command, openings: set<int>) {
    && (forall i :: 0 <= i < |s.fills| ==> s.fills[i].recordedAt <= c.now)
    && forall k :: 0 <= k < |SessionsOf(c)| ==> SessionsOf(c)[k].openAt in openings
  }

  lemma NothingFilledYet(s: Store, o: Order, c: Command, openings: set<int>)
    requires CapacityKept(s, openings) && OnePerDate(openings) && Timely(s, c, openings) && Ahead(o, DataOf(c), c.now)
    ensures FilledFor(s.fills, o) == 0 && o.targetOpenAt in openings
  {
    hide FilledFor;
    var k :| 0 <= k < |SessionsOf(c)| && SessionsOf(c)[k].openAt == o.targetOpenAt;
    forall f | f in s.fills
      ensures FilledOn(DateOf(o.targetOpenAt), o.instrument)(f) == 0
    {
      var i :| 0 <= i < |s.fills| && s.fills[i] == f;
      assert AtAnOpening(s.orders, s.fills[i]);
      var n :| 0 <= n < |s.orders| && s.orders[n].targetOpenAt == f.effectiveAt;
    }
    SumIsZero(s.fills, FilledOn(DateOf(o.targetOpenAt), o.instrument));
    assert FilledFor(s.fills, o) == Sum(s.fills, FilledOn(DateOf(o.targetOpenAt), o.instrument)) by {
      FilledForIs(s.fills, o);
    }
  }

  lemma FilledForIs(fills: seq<Fill>, o: Order)
    ensures FilledFor(fills, o) == Sum(fills, FilledOn(DateOf(o.targetOpenAt), o.instrument))
  {
  }

  lemma RunKeepsCapacity(s: Store, c: Command, openings: set<int>)
    requires CapacityKept(s, openings) && OnePerDate(openings) && Timely(s, c, openings)
    ensures CapacityKept(Run(s, c).After(s), openings)
  {
    var t := Run(s, c).After(s);
    RunExtends(s, c);
    RunAdds(s, c);
    hide Run;
    hide FilledFor;
    hide Grows;
    hide Ahead;
    forall n | 0 <= n < |t.orders|
      ensures t.orders[n].targetOpenAt in openings && FilledFor(t.fills, t.orders[n]) <= t.orders[n].capacity
    {
      if n < |s.orders| {
        assert Follows(s.orders[n], t.orders[n]);
      } else {
        NothingFilledYet(s, t.orders[n], c, openings);
        assert t.orders[n].capacity >= 0 by { AheadHasCapacity(t.orders[n], DataOf(c), c.now); }
      }
    }
    forall i | 0 <= i < |t.fills|
      ensures AtAnOpening(t.orders, t.fills[i])
    {
      if i < |s.fills| {
        assert AtAnOpening(s.orders, s.fills[i]);
        StillOpensAt(s, t, s.fills[i].effectiveAt, s.fills[i].instrument);
      }
    }
  }

  lemma AheadHasCapacity(o: Order, data: Snapshot, now: int)
    requires Ahead(o, data, now)
    ensures o.capacity >= 0
  {
  }

  /** Every command comes after the fills recorded before it, and knows no opening but these. */
  ghost predicate InOrder(s: Store, commands: seq<Command>, openings: set<int>) {
    commands != [] ==>
      && InOrder(s, commands[..|commands| - 1], openings)
      && Timely(AfterAll(s, commands[..|commands| - 1]), commands[|commands| - 1], openings)
  }

  lemma {:induction false} RunsKeepCapacity(s: Store, commands: seq<Command>, openings: set<int>)
    requires CapacityKept(s, openings) && OnePerDate(openings) && InOrder(s, commands, openings)
    ensures CapacityKept(AfterAll(s, commands), openings)
  {
    hide CapacityKept;
    hide OnePerDate;
    hide Timely;
    hide Run;
    if commands != [] {
      var init := commands[..|commands| - 1];
      RunsKeepCapacity(s, init, openings);
      RunKeepsCapacity(AfterAll(s, init), commands[|commands| - 1], openings);
    }
  }

  /** After any sequence of commands in the order of time, all shares filled for an opening date and a name are within
      the capacity of each order stored for it. */
  lemma LiveCapacityIsKept(account: int, initialCash: int, createdAt: int, commands: seq<Command>, openings: set<int>,
                           n: nat)
    requires OnePerDate(openings) && InOrder(OpenDesk(account, initialCash, createdAt), commands, openings)
    requires n < |AfterAll(OpenDesk(account, initialCash, createdAt), commands).orders|
    ensures var s := AfterAll(OpenDesk(account, initialCash, createdAt), commands);
      Sum(s.fills, FilledOn(DateOf(s.orders[n].targetOpenAt), s.orders[n].instrument)) <= s.orders[n].capacity
  {
    RunsKeepCapacity(OpenDesk(account, initialCash, createdAt), commands, openings);
    hide AfterAll;
    hide OnePerDate;
    hide InOrder;
  }

  // ---------- Volume ----------

  /** The order stored at an index was added by a command. */
  predicate StoredBy(s: Store, commands: seq<Command>, n: nat, k: nat) {
    k < |commands| && |AfterAll(s, commands[..k]).orders| <= n < |AfterAll(s, commands[..k + 1]).orders|
  }

  lemma TermsKeepVolume(bars: seq<Bar>, o: Order, p: Order)
    requires Follows(o, p)
    ensures FromVolume(bars, p) == FromVolume(bars, o)
  {
    hide PreviousVolumeCapacity;
    hide Filter;
  }

  /** Every order stored has the capacity computed from the volume known to the command that stored it. */
  lemma {:induction false} OrdersAreSized(s: Store, commands: seq<Command>, n: nat) returns (k: nat)
    requires s.orders == [] && n < |AfterAll(s, commands).orders|
    ensures StoredBy(s, commands, n, k) && FromVolume(DataOf(commands[k]).bars, AfterAll(s, commands).orders[n])
  {
    hide Run;
    hide Follows;
    hide FromVolume;
    hide Grows;
    hide FillsGrow;
    if commands != [] {
      var init, c := commands[..|commands| - 1], commands[|commands| - 1];
      var before, t := AfterAll(s, init), AfterAll(s, commands);
      RunExtends(before, c);
      RunAdds(before, c);
      if n < |before.orders| {
        k := OrdersAreSized(s, init, n);
        assert commands[..k] == init[..k] && commands[..k + 1] == init[..k + 1];
        TermsKeepVolume(DataOf(commands[k]).bars, before.orders[n], t.orders[n]);
      } else {
        k := |commands| - 1;
        assert Ahead(t.orders[n], DataOf(c), c.now);
        assert commands[..k + 1] == commands;
      }
    }
  }

  /** Whatever is filled was ordered for its opening and name, and all that is filled for the date and the name is
      within one part in two thousand of the volume of the twenty latest sessions known to the command that stored the
      order. */
  lemma LiveFillsWithinVolume(account: int, initialCash: int, createdAt: int, commands: seq<Command>,
                              openings: set<int>, i: nat)
    returns (n: nat, k: nat, recent: seq<Bar>)
    requires OnePerDate(openings) && InOrder(OpenDesk(account, initialCash, createdAt), commands, openings)
    requires i < |AfterAll(OpenDesk(account, initialCash, createdAt), commands).fills|
    ensures var s := AfterAll(OpenDesk(account, initialCash, createdAt), commands);
      var f := s.fills[i];
      && n < |s.orders| && s.orders[n].targetOpenAt == f.effectiveAt && s.orders[n].instrument == f.instrument
      && StoredBy(OpenDesk(account, initialCash, createdAt), commands, n, k)
      && FromVolume(DataOf(commands[k]).bars, s.orders[n])
      && |recent| == VOLUME_SESSIONS && CleanVolumes(recent)
      && (forall bar :: bar in recent ==>
            bar in DataOf(commands[k]).bars && bar.instrument == f.instrument && CompletedBefore(f.effectiveAt)(bar))
      && VOLUME_SHARE * Sum(s.fills, FilledOn(DateOf(f.effectiveAt), f.instrument)) <= Sum(recent, Volume())
  {
    var start := OpenDesk(account, initialCash, createdAt);
    var s := AfterAll(start, commands);
    RunsKeepCapacity(start, commands, openings);
    hide AfterAll;
    hide OnePerDate;
    hide InOrder;
    hide PreviousVolumeCapacity;
    hide Sum;
    assert AtAnOpening(s.orders, s.fills[i]);
    n :| 0 <= n < |s.orders| && s.orders[n].targetOpenAt == s.fills[i].effectiveAt
         && s.orders[n].instrument == s.fills[i].instrument;
    k := OrdersAreSized(start, commands, n);
    recent := RecentVolume(DataOf(commands[k]).bars, s.orders[n]);
  }

  lemma RecentVolume(bars: seq<Bar>, o: Order) returns (recent: seq<Bar>)
    requires FromVolume(bars, o)
    ensures |recent| == VOLUME_SESSIONS && CleanVolumes(recent) && VOLUME_SHARE * o.capacity <= Sum(recent, Volume())
    ensures forall bar :: bar in recent ==>
      bar in bars && bar.instrument == o.instrument && CompletedBefore(o.targetOpenAt)(bar)
  {
    var mine := Filter(bars, Replay.OfInstrument(o.instrument));
    var older: seq<Bar>;
    older, recent := CapacityFromLatestSessions(mine, o.targetOpenAt);
    hide PreviousVolumeCapacity;
    hide Sum;
    Volumes.RecentAreKnown(mine, o.targetOpenAt, older, recent);
    forall bar | bar in recent
      ensures bar in bars && bar.instrument == o.instrument
    {
      FilterKeeps(bars, Replay.OfInstrument(o.instrument), bar);
    }
  }
}
