/** A replay never looks ahead: data published after an instant cannot change any session decided by that instant. */
module NoLookAhead {
  import opened Calendars
  import opened Lists
  import opened Snapshots
  import opened Replay
  import opened Running

  /** Two sources with the same instruments and calendar that publish the same data by an instant. */
  predicate AgreeUntil(s: Snapshot, t: Snapshot, until: int) {
    && s.instruments == t.instruments && s.calendar == t.calendar
    && Filter(s.bars, BarKnown(until)) == Filter(t.bars, BarKnown(until))
    && Filter(s.facts, FactKnown(until)) == Filter(t.facts, FactKnown(until))
    && Filter(s.actions, ActionKnown(until)) == Filter(t.actions, ActionKnown(until))
  }

  lemma SelectionsAgree(s: Snapshot, t: Snapshot, until: int, asOf: int)
    requires AgreeUntil(s, t, until) && asOf <= until
    ensures SelectSnapshot(s, asOf) == SelectSnapshot(t, asOf)
  {
    SelectionIsCausal(s, asOf, until);
    SelectionIsCausal(t, asOf, until);
    hide Filter;
    hide Latest;
    hide Sort;
  }

  // ---------- Execution reads only the past ----------

  lemma OrderAgrees(b: Book, s: Snapshot, t: Snapshot, current: Snapshot, n: nat, now: int)
    requires AgreeUntil(s, t, now) && n < |b.orders|
    ensures ExecuteOrder(b, s, current, n, now) == ExecuteOrder(b, t, current, n, now)
  {
    hide SelectSnapshot;
    hide OpeningMatch;
    hide CloseMatched;
    hide CloseUnfilled;
    hide HasOpening;
    if now >= b.orders[n].targetOpenAt {
      SelectionsAgree(s, t, now, b.orders[n].targetOpenAt - 1);
    }
    hide AgreeUntil;
  }

  lemma {:induction false} OrdersAgree(b: Book, s: Snapshot, t: Snapshot, current: Snapshot, n: nat, now: int)
    requires AgreeUntil(s, t, now) && n <= |b.orders|
    ensures ExecuteOrders(b, s, current, n, now) == ExecuteOrders(b, t, current, n, now)
  {
    hide AgreeUntil;
    hide ExecuteOrder;
    if n > 0 {
      OrdersAgree(b, s, t, current, n - 1, now);
      var before := ExecuteOrders(b, s, current, n - 1, now);
      if before.Ok? {
        OrderAgrees(before.value, s, t, current, n - 1, now);
      }
    }
  }

  // ---------- Sessions ----------

  /** Inputs that differ only in what is published after an instant. */
  ghost predicate SameUntil(x: ReplayInput, y: ReplayInput, until: int) {
    && AgreeUntil(x.source, y.source, until)
    && x == y.(source := x.source)
  }

  lemma EarlierAgreement(s: Snapshot, t: Snapshot, until: int, asOf: int)
    requires AgreeUntil(s, t, until) && asOf <= until
    ensures AgreeUntil(s, t, asOf)
  {
    FilterTwice(s.bars, BarKnown(asOf), BarKnown(until));
    FilterTwice(t.bars, BarKnown(asOf), BarKnown(until));
    FilterTwice(s.facts, FactKnown(asOf), FactKnown(until));
    FilterTwice(t.facts, FactKnown(asOf), FactKnown(until));
    FilterTwice(s.actions, ActionKnown(asOf), ActionKnown(until));
    FilterTwice(t.actions, ActionKnown(asOf), ActionKnown(until));
  }

  lemma {:induction false} FilterTwice<T(!new)>(xs: seq<T>, early: T -> bool, late: T -> bool)
    requires forall x :: early(x) ==> late(x)
    ensures Filter(Filter(xs, late), early) == Filter(xs, early)
  {
    if xs != [] {
      var init, last := xs[..|xs| - 1], xs[|xs| - 1];
      FilterTwice(init, early, late);
      if late(last) {
        assert Filter(xs, late)[..|Filter(init, late)|] == Filter(init, late);
      } else {
        assert Filter(xs, late) == Filter(init, late);
      }
    }
  }

  lemma PlansAgree(b: Book, s: Snapshot, x: ReplayInput, y: ReplayInput, target: Session)
    requires x == y.(source := x.source)
    ensures PlanSession(b, s, x, target) == PlanSession(b, s, y, target)
  {
    hide Rebalance.BuildRebalance;
    hide Risk.ComputeNAV;
    hide IssueOrders;
  }

  lemma OpeningsAgree(b: Book, x: ReplayInput, y: ReplayInput, previous: Session, session: Session)
    requires SameUntil(x, y, DecisionTime(previous))
    ensures OpenSession(b, x, previous, session) == OpenSession(b, y, previous, session)
  {
    var decisionAt := DecisionTime(previous);
    SelectionsAgree(x.source, y.source, decisionAt, decisionAt);
    hide SelectSnapshot;
    hide AgreeUntil;
    hide Reconcile;
    hide PlanSession;
    var decision := SelectSnapshot(x.source, decisionAt);
    var reconciled := Reconcile(b, decision, decisionAt, x.universe);
    if reconciled.Ok? {
      PlansAgree(reconciled.value, decision, x, y, session);
    }
  }

  lemma ExecutionsAgree(b: Book, s: Snapshot, t: Snapshot, current: Snapshot, now: int)
    requires AgreeUntil(s, t, now)
    ensures Execute(b, s, current, now) == Execute(b, t, current, now)
  {
    var sorted := b.(orders := Sort(b.orders, ByOpening()));
    hide Sort;
    hide AgreeUntil;
    hide ExecuteOrders;
    OrdersAgree(sorted, s, t, current, |sorted.orders|, now);
  }

  lemma ClosingsAgree(b: Book, x: ReplayInput, y: ReplayInput, session: Session)
    requires SameUntil(x, y, DecisionTime(session))
    ensures CloseSession(b, x, session) == CloseSession(b, y, session)
  {
    var now := DecisionTime(session);
    SelectionsAgree(x.source, y.source, now, now);
    hide SelectSnapshot;
    hide AgreeUntil;
    hide Reconcile;
    hide Execute;
    hide Risk.ComputeNAV;
    var current := SelectSnapshot(x.source, now);
    var atOpen := Reconcile(b, current, session.openAt, x.universe);
    if atOpen.Ok? {
      ExecutionsAgree(atOpen.value, x.source, y.source, current, now);
    }
  }

  lemma SessionsAgree(b: Book, x: ReplayInput, y: ReplayInput, previous: Session, session: Session)
    requires SameUntil(x, y, DecisionTime(session)) && DecisionTime(previous) <= DecisionTime(session)
    ensures RunSession(b, x, previous, session) == RunSession(b, y, previous, session)
  {
    EarlierAgreement(x.source, y.source, DecisionTime(session), DecisionTime(previous));
    hide AgreeUntil;
    hide OpenSession;
    hide CloseSession;
    OpeningsAgree(b, x, y, previous, session);
    var planned := OpenSession(b, x, previous, session);
    if planned.Ok? {
      ClosingsAgree(planned.value, x, y, session);
    }
  }

  lemma DecisionTimesAscend(days: seq<Session>, n: nat)
    requires WellFormedDays(days) && 0 < n < |days|
    ensures DecisionTime(days[n - 1]) < DecisionTime(days[n])
  {
  }

  /** Two replays that agree on every bar, fact and action published by an instant reach the same book — orders, fills,
      ledger, positions, or the same error — after every session decided by that instant. */
  lemma {:induction false} NothingLaterMatters(x: ReplayInput, y: ReplayInput, days: seq<Session>, n: nat, until: int)
    requires n < |days| && WellFormedDays(days) && SameUntil(x, y, until) && DecisionTime(days[n]) <= until
    ensures RunSessions(x, days, n) == RunSessions(y, days, n)
  {
    hide RunSession;
    hide WellFormedDays;
    hide AgreeUntil;
    if n > 0 {
      DecisionTimesAscend(days, n);
      NothingLaterMatters(x, y, days, n - 1, until);
      EarlierAgreement(x.source, y.source, until, DecisionTime(days[n]));
      var before := RunSessions(x, days, n - 1);
      if before.Ok? {
        SessionsAgree(before.value, x, y, days[n - 1], days[n]);
      }
    }
  }

  lemma CutAgrees(source: Snapshot, until: int)
    ensures AgreeUntil(source, KnownBy(source, until), until)
  {
    FilterTwice(source.bars, BarKnown(until), BarKnown(until));
    FilterTwice(source.facts, FactKnown(until), FactKnown(until));
    FilterTwice(source.actions, ActionKnown(until), ActionKnown(until));
  }

  /** In particular a replay over a source cut down to what was published by then reaches the same book. */
  lemma FutureIsIrrelevant(input: ReplayInput, days: seq<Session>, n: nat)
    requires n < |days| && WellFormedDays(days)
    ensures RunSessions(input, days, n)
         == RunSessions(input.(source := KnownBy(input.source, DecisionTime(days[n]))), days, n)
  {
    hide RunSessions;
    hide WellFormedDays;
    hide AgreeUntil;
    hide KnownBy;
    var until := DecisionTime(days[n]);
    CutAgrees(input.source, until);
    NothingLaterMatters(input, input.(source := KnownBy(input.source, until)), days, n, until);
  }

  /** They are also admitted alike, over the same sessions, once the warm-up data is published. */
  lemma AdmittedAlike(x: ReplayInput, y: ReplayInput, until: int)
    requires SameUntil(x, y, until) && DecisionTime(ReplayDays(x)[0]) <= until
    ensures Admit(x) == Admit(y) && ReplayDays(x) == ReplayDays(y)
  {
    SelectionsAgree(x.source, y.source, until, DecisionTime(ReplayDays(x)[0]));
    hide SelectSnapshot;
    hide Filter;
    hide Sort;
    hide LastBefore;
  }

  /** A session does not depend on the sessions after it: extending a replay changes nothing it already did. */
  lemma {:induction false} LaterSessionsDoNotMatter(input: ReplayInput, days: seq<Session>, more: seq<Session>, n: nat)
    requires n < |days| && days <= more
    ensures RunSessions(input, days, n) == RunSessions(input, more, n)
  {
    hide RunSession;
    if n > 0 {
      LaterSessionsDoNotMatter(input, days, more, n - 1);
    }
  }
}
