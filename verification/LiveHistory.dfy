// What a live desk has stored is never rewritten: the ledger and the fills only grow, an order keeps its terms, and an
// order once closed stays as it was closed.
module LiveHistory {
  import opened Outcomes
  import opened Money
  import opened Domain
  import opened Calendars
  import opened Lists
  import opened Ledger
  import opened Snapshots
  import opened Risk
  import opened Rebalance
  import opened Execution
  import opened Sums
  import opened BookEvents
  import BookMeaning
  import opened Live

  // ---------- What is recorded ----------

  /** Entries that stand for cash still to come: sales until they are settled, accruals until they are paid. */
  predicate Claims(k: Bucket, e: LedgerEntry) {
    (k == UnsettledCash && e.kind == SellFill) || (k == DividendCash && e.key.ActionKey?)
  }

  /** The number of the entry that closes a claim. */
  function ClosedBy(k: Bucket, e: LedgerEntry): EventKey {
    if k == DividendCash && e.key.ActionKey? then PaymentKey(e.key.action) else SettlementKey(e.key)
  }

  predicate Closing(k: Bucket, key: EventKey) {
    (k == UnsettledCash && key.SettlementKey?) || (k == DividendCash && key.PaymentKey?)
  }

  /** An entry that closes a claim takes exactly what was claimed; no other takes cash from the bucket or adds to it. */
  predicate ProperIn(ledger: seq<LedgerEntry>, k: Bucket, e: LedgerEntry) {
    if Closing(k, e.key) then
      && !Claims(k, e)
      && exists j :: 0 <= j < |ledger| && Claims(k, ledger[j]) && ClosedBy(k, ledger[j]) == e.key
                     && Amount(e.delta, k) == -Amount(ledger[j].delta, k)
    else Claims(k, e) || Amount(e.delta, k) == 0
  }

  /** Cash that comes or goes with a fill. */
  function FillCash(): LedgerEntry -> int {
    (e: LedgerEntry) => if e.key.FillKey? then BookMeaning.CashOf(e.delta) else 0
  }

  /** Besides fills only an action brings cash; every other entry moves it from one bucket to another. */
  predicate Proper(ledger: seq<LedgerEntry>, e: LedgerEntry) {
    && ProperIn(ledger, UnsettledCash, e) && ProperIn(ledger, DividendCash, e)
    && BookMeaning.CashOf(e.delta) == FillCash()(e) + BookMeaning.ActionIncome()(e)
  }

  /** A proper entry that is no fill. */
  predicate Quiet(ledger: seq<LedgerEntry>, e: LedgerEntry) {
    Proper(ledger, e) && !e.key.FillKey?
  }

  /** A ledger to which entries have been added, each under a number of its own. */
  ghost predicate Grows(ledger: seq<LedgerEntry>, after: seq<LedgerEntry>) {
    && ledger <= after
    && forall i :: |ledger| <= i < |after| ==> !HasKey(after[..i], after[i].key) && Proper(after[..i], after[i])
  }

  lemma GrowsThrough(a: seq<LedgerEntry>, b: seq<LedgerEntry>, c: seq<LedgerEntry>)
    requires Grows(a, b) && Grows(b, c)
    ensures Grows(a, c)
  {
    hide Proper;
    hide HasKey;
    forall i | |a| <= i < |c|
      ensures !HasKey(c[..i], c[i].key) && Proper(c[..i], c[i])
    {
      if i < |b| {
        assert c[..i] == b[..i] && c[i] == b[i];
      }
    }
  }

  lemma StaysProper(ledger: seq<LedgerEntry>, after: seq<LedgerEntry>, e: LedgerEntry)
    requires Proper(ledger, e) && ledger <= after
    ensures Proper(after, e)
  {
    StaysProperIn(ledger, after, UnsettledCash, e);
    StaysProperIn(ledger, after, DividendCash, e);
  }

  lemma StaysProperIn(ledger: seq<LedgerEntry>, after: seq<LedgerEntry>, k: Bucket, e: LedgerEntry)
    requires ProperIn(ledger, k, e) && ledger <= after
    ensures ProperIn(after, k, e)
  {
    if Closing(k, e.key) {
      var j :| 0 <= j < |ledger| && Claims(k, ledger[j]) && ClosedBy(k, ledger[j]) == e.key
               && Amount(e.delta, k) == -Amount(ledger[j].delta, k);
      assert after[j] == ledger[j];
    }
  }

  /** An entry about an order that is not filled. */
  predicate Plain(e: LedgerEntry) {
    && (e.key.ReserveKey? || e.key.ReleaseKey?) && e.delta.dividends == 0 && e.delta.unsettled == 0
    && e.delta.available + e.delta.reserved == 0
  }

  lemma PlainIsQuiet(ledger: seq<LedgerEntry>, e: LedgerEntry)
    requires Plain(e)
    ensures Quiet(ledger, e)
  {
  }

  // ---------- The history ----------

  /** The same order later: only its state, reason, reserves and version may differ, and nothing once it is closed. */
  predicate Follows(o: Order, p: Order) {
    && p == o.(state := p.state, reason := p.reason, reservedCash := p.reservedCash,
               reservedQuantity := p.reservedQuantity, version := p.version)
    && (o.Terminal() ==> p == o)
  }

  /** The shares filled for the opening date and the name of an order. */
  function FilledFor(fills: seq<Fill>, o: Order): int {
    Sum(fills, FilledOn(DateOf(o.targetOpenAt), o.instrument))
  }

  /** Fills are never taken back, and none takes an order beyond its capacity. */
  ghost predicate FillsGrow(s: Store, t: Store)
    requires |s.orders| <= |t.orders|
  {
    && s.fills <= t.fills
    && (forall n :: 0 <= n < |s.orders| && FilledFor(s.fills, s.orders[n]) <= s.orders[n].capacity ==>
          FilledFor(t.fills, t.orders[n]) <= t.orders[n].capacity)
    && forall i :: |s.fills| <= i < |t.fills| ==> AtAnOpening(t.orders, t.fills[i])
  }

  /** A fill is made at the opening of an order of its name, and recorded no earlier. */
  predicate AtAnOpening(orders: seq<Order>, f: Fill) {
    f.effectiveAt <= f.recordedAt && OpensAt(orders, f.effectiveAt, f.instrument)
  }

  predicate OpensAt(orders: seq<Order>, t: int, id: int) {
    exists n :: 0 <= n < |orders| && orders[n].targetOpenAt == t && orders[n].instrument == id
  }

  lemma StillOpensAt(s: Store, t: Store, at: int, id: int)
    requires Extends(s, t) && OpensAt(s.orders, at, id)
    ensures OpensAt(t.orders, at, id)
  {
    var n :| 0 <= n < |s.orders| && s.orders[n].targetOpenAt == at && s.orders[n].instrument == id;
    assert Follows(s.orders[n], t.orders[n]);
    hide Grows;
    hide FillsGrow;
  }

  /** The cash of the fills recorded is that of the fills made. */
  ghost predicate CashFollows(s: Store, t: Store) {
    Sum(t.ledger, FillCash()) - Sum(s.ledger, FillCash())
    == Sum(t.fills, BookMeaning.NetFlow()) - Sum(s.fills, BookMeaning.NetFlow())
  }

  predicate SameStart(a: Account, b: Account) {
    b.initialCash == a.initialCash
  }

  ghost predicate Extends(s: Store, t: Store) {
    && Grows(s.ledger, t.ledger) && s.claims <= t.claims && CashFollows(s, t) && SameStart(s.account, t.account)
    && |s.orders| <= |t.orders| && (forall n :: 0 <= n < |s.orders| ==> Follows(s.orders[n], t.orders[n]))
    && FillsGrow(s, t)
  }

  /** Such a history without a new order. */
  ghost predicate Continues(s: Store, t: Store) {
    Extends(s, t) && |t.orders| == |s.orders|
  }

  lemma ContinuesItself(s: Store)
    ensures Continues(s, s)
  {
  }

  lemma ExtendsThrough(s: Store, t: Store, u: Store)
    requires Extends(s, t) && Extends(t, u)
    ensures Extends(s, u)
  {
    GrowsThrough(s.ledger, t.ledger, u.ledger);
    hide Grows;
    hide FilledFor;
    forall i | |s.fills| <= i < |u.fills|
      ensures AtAnOpening(u.orders, u.fills[i])
    {
      if i < |t.fills| {
        assert AtAnOpening(t.orders, t.fills[i]);
        StillOpensAt(t, u, t.fills[i].effectiveAt, t.fills[i].instrument);
      }
    }
  }

  lemma ContinuesThrough(s: Store, t: Store, u: Store)
    requires Continues(s, t) && Continues(t, u)
    ensures Continues(s, u)
  {
    ExtendsThrough(s, t, u);
    hide Extends;
  }

  /** The balances, the rows and the actions taken are no part of the history. */
  lemma SameHistory(s: Store, t: Store, u: Store)
    requires u.ledger == t.ledger && u.fills == t.fills && u.claims == t.claims && u.orders == t.orders
    requires SameStart(s.account, u.account) || SameStart(t.account, u.account)
    ensures Extends(s, t) ==> Extends(s, u)
    ensures Continues(s, t) ==> Continues(s, u)
  {
    hide Grows;
    hide FilledFor;
  }

  // ---------- The stores ----------

  lemma SaveExtends(s: Store, o: Order, expected: int)
    requires SaveOrder(s, o, expected).Ok?
    ensures Continues(s, SaveOrder(s, o, expected).value)
  {
  }

  lemma {:induction false} InsertExtends(s: Store, batch: seq<Order>)
    requires InsertOrders(s, batch).Ok?
    ensures Extends(s, InsertOrders(s, batch).value)
  {
    if batch == [] {
      ContinuesItself(s);
    } else {
      InsertExtends(s, batch[..|batch| - 1]);
      var t, u := InsertOrders(s, batch[..|batch| - 1]).value, InsertOrders(s, batch).value;
      assert Extends(t, u);
      ExtendsThrough(s, t, u);
    }
  }

  lemma {:induction false} LogExtends(s: Store, entries: seq<LedgerEntry>)
    requires InsertLedger(s, entries).Ok? && forall i :: 0 <= i < |entries| ==> Quiet(s.ledger, entries[i])
    ensures Continues(s, InsertLedger(s, entries).value)
  {
    if entries == [] {
      ContinuesItself(s);
    } else {
      var init, e := entries[..|entries| - 1], entries[|entries| - 1];
      LogExtends(s, init);
      var t := InsertLedger(s, init).value;
      StaysProper(s.ledger, t.ledger, e);
      var u := t.(ledger := t.ledger + [e]);
      EntryExtends(t, e);
      hide Quiet;
      hide Continues;
      ContinuesThrough(s, t, u);
    }
  }

  lemma EntryExtends(t: Store, e: LedgerEntry)
    requires !HasKey(t.ledger, e.key) && Quiet(t.ledger, e)
    ensures Continues(t, t.(ledger := t.ledger + [e]))
  {
    var u := t.(ledger := t.ledger + [e]);
    SumAppend(t.ledger, e, FillCash());
    assert u.ledger[..|t.ledger|] == t.ledger;
    hide Proper;
    hide Sum;
    hide HasKey;
    assert Grows(t.ledger, u.ledger);
    hide Grows;
    hide FilledFor;
  }

  lemma {:induction false} ClaimExtends(s: Store, entries: seq<LedgerEntry>)
    requires ClaimAll(s, entries).Ok?
    ensures Continues(s, ClaimAll(s, entries).value) && ClaimAll(s, entries).value.ledger == s.ledger
  {
    if entries != [] {
      ClaimExtends(s, entries[..|entries| - 1]);
    }
  }

  lemma CloseExtends(s: Store, o: Order, closed: Order, m: Mutation)
    requires CloseWith(s, o, closed, m).Ok? && SameStart(s.account, m.account)
    requires forall i :: 0 <= i < |m.entries| ==> Plain(m.entries[i])
    ensures Continues(s, CloseWith(s, o, closed, m).value)
  {
    SaveExtends(s, closed, o.version);
    var saved := SaveOrder(s, closed, o.version).value;
    forall i | 0 <= i < |m.entries|
      ensures Quiet(saved.ledger, m.entries[i])
    {
      PlainIsQuiet(saved.ledger, m.entries[i]);
    }
    hide Quiet;
    LogExtends(saved, m.entries);
    hide Continues;
    hide SaveOrder;
    var logged := InsertLedger(saved, m.entries).value;
    hide InsertLedger;
    ContinuesThrough(s, saved, logged);
    SameHistory(s, logged, CloseWith(s, o, closed, m).value);
  }

  // ---------- Their entries ----------

  lemma {:induction false} ReservesArePlain(account: Account, positions: seq<Position>, orders: seq<Order>)
    requires ReserveOrders(account, positions, orders).Ok?
    ensures var entries := ReserveOrders(account, positions, orders).value.entries;
      forall i :: 0 <= i < |entries| ==> Plain(entries[i])
    ensures SameStart(account, ReserveOrders(account, positions, orders).value.account)
  {
    hide ReserveShares;
    hide ApplyDelta;
    if orders != [] {
      ReservesArePlain(account, positions, orders[..|orders| - 1]);
    }
  }

  lemma ReleaseIsPlain(account: Account, positions: seq<Position>, o: Order, why: Reason, now: int)
    requires ReleaseOrder(account, positions, o, why, now).Ok?
    ensures ReleaseOrder(account, positions, o, why, now).value.entries
         == [ReleaseEntry(account, o, Released(why), now)]
    ensures Plain(ReleaseEntry(account, o, Released(why), now))
    ensures SameStart(account, ReleaseOrder(account, positions, o, why, now).value.account)
  {
    hide ReleaseShares;
    hide ApplyDelta;
  }

  lemma FillIsProper(ledger: seq<LedgerEntry>, account: Account, positions: seq<Position>, fill: Fill)
    returns (e: LedgerEntry)
    requires ApplyFill(account, positions, fill).Ok?
    ensures ApplyFill(account, positions, fill).value.entries == [e]
    ensures SameStart(account, ApplyFill(account, positions, fill).value.account)
    ensures Proper(ledger, e) && FillCash()(e) == BookMeaning.NetFlow()(fill)
  {
    hide GrossValue;
    hide ProportionalCost;
    hide SortPositions;
    hide ApplyDelta;
    e := ApplyFill(account, positions, fill).value.entries[0];
  }

  lemma TimesDoNotMatter(ledger: seq<LedgerEntry>, e: LedgerEntry, effectiveAt: int, recordedAt: int)
    requires Quiet(ledger, e)
    ensures Quiet(ledger, e.(effectiveAt := effectiveAt, recordedAt := recordedAt))
  {
  }

  lemma RecordedAreQuiet(ledger: seq<LedgerEntry>, entries: seq<LedgerEntry>, now: int)
    requires forall i :: 0 <= i < |entries| ==> Quiet(ledger, entries[i])
    ensures forall i :: 0 <= i < |RecordedAs(entries, now)| ==> Quiet(ledger, RecordedAs(entries, now)[i])
  {
    forall i | 0 <= i < |entries|
      ensures Quiet(ledger, RecordedAs(entries, now)[i])
    {
      TimesDoNotMatter(ledger, entries[i], entries[i].effectiveAt, now);
    }
  }

  lemma {:induction false} SettlementsAreQuiet(ledger: seq<LedgerEntry>, account: Account, sales: seq<LedgerEntry>,
                                               calendar: Calendar, now: int)
    requires SettleReceivables(account, sales, calendar, now).Ok? && forall i :: 0 <= i < |sales| ==> sales[i] in ledger
    ensures var entries := SettleReceivables(account, sales, calendar, now).value.entries;
      forall i :: 0 <= i < |entries| ==> Quiet(ledger, entries[i])
    ensures SameStart(account, SettleReceivables(account, sales, calendar, now).value.account)
  {
    hide SettlementStart;
    hide ApplyDelta;
    hide Quiet;
    if sales != [] {
      var init, s := sales[..|sales| - 1], sales[|sales| - 1];
      SettlementsAreQuiet(ledger, account, init, calendar, now);
      var due := SettlementStart(calendar, s.effectiveAt).value;
      SettlementIsQuiet(ledger, account, s, due, now);
      var m := SettleReceivables(account, init, calendar, now).value;
      assert SettlementEntry(m.account, s, due, now).delta == SettlementEntry(account, s, due, now).delta;
      SettlementIsQuiet(ledger, m.account, s, due, now);
    }
  }

  lemma SettlementIsQuiet(ledger: seq<LedgerEntry>, account: Account, s: LedgerEntry, due: int, now: int)
    requires s in ledger && s.kind == SellFill
    ensures Quiet(ledger, SettlementEntry(account, s, due, now))
  {
    var j :| 0 <= j < |ledger| && ledger[j] == s;
    assert Claims(UnsettledCash, ledger[j]) && ClosedBy(UnsettledCash, ledger[j]) == SettlementKey(s.key);
  }

  lemma ActionEntryIsQuiet(ledger: seq<LedgerEntry>, e: LedgerEntry)
    requires e.key.ActionKey? && e.kind != SellFill && e.delta.reserved == 0 && e.delta.unsettled == 0
    ensures Quiet(ledger, e)
  {
  }

  lemma ActionIsQuiet(ledger: seq<LedgerEntry>, account: Account, positions: seq<Position>, a: CorporateAction,
                      holders: seq<Position>)
    requires ApplyCorporateAction(account, positions, a, holders).Ok?
    ensures var entries := ApplyCorporateAction(account, positions, a, holders).value.entries;
      |entries| == 1 && Quiet(ledger, entries[0])
    ensures SameStart(account, ApplyCorporateAction(account, positions, a, holders).value.account)
  {
    hide Quiet;
    hide ApplySplit;
    hide EligibleQuantity;
    hide ApplyDelta;
    hide GrossValue;
    ActionEntryIsQuiet(ledger, ApplyCorporateAction(account, positions, a, holders).value.entries[0]);
  }

  lemma PaymentIsQuiet(ledger: seq<LedgerEntry>, account: Account, a: CorporateAction, accrual: LedgerEntry, now: int)
    requires accrual in ledger && PayDividend(account, a, accrual, now).Ok?
    ensures var entries := PayDividend(account, a, accrual, now).value.entries;
      |entries| == 1 && Quiet(ledger, entries[0])
    ensures SameStart(account, PayDividend(account, a, accrual, now).value.account)
  {
    hide ApplyDelta;
    var j :| 0 <= j < |ledger| && ledger[j] == accrual;
    assert Claims(DividendCash, ledger[j]) && ClosedBy(DividendCash, ledger[j]) == PaymentKey(a.id);
  }

  // ---------- The steps ----------

  lemma ReserveExtends(s: Store, batch: seq<Order>)
    ensures Extends(s, Reserve(s, batch).After(s))
  {
    hide ReserveOrders;
    ContinuesItself(s);
    if batch != [] && ReserveOrders(s.account, s.positions, batch).Ok? && InsertOrders(s, batch).Ok? {
      var m, t := ReserveOrders(s.account, s.positions, batch).value, InsertOrders(s, batch).value;
      InsertExtends(s, batch);
      if InsertLedger(t, m.entries).Ok? {
        ReservesArePlain(s.account, s.positions, batch);
        forall i | 0 <= i < |m.entries|
          ensures Quiet(t.ledger, m.entries[i])
        {
          PlainIsQuiet(t.ledger, m.entries[i]);
        }
        hide Quiet;
        LogExtends(t, m.entries);
        hide InsertOrders;
        hide InsertLedger;
        hide Extends;
        var u := InsertLedger(t, m.entries).value;
        ExtendsThrough(s, t, u);
        SameHistory(s, u, Reserve(s, batch).After(s));
      }
    }
  }

  lemma CancelOneExtends(s: Store, o: Order, now: int, reason: Reason, buysOnly: bool)
    requires CancelOne(s, o, now, reason, buysOnly).Ok?
    ensures Continues(s, CancelOne(s, o, now, reason, buysOnly).value)
  {
    hide ReleaseOrder;
    hide SaveOrder;
    hide CloseWith;
    hide Continues;
    ContinuesItself(s);
    if SaveOrder(s, AdvanceOrder(o, now), o.version).Ok? {
      SaveExtends(s, AdvanceOrder(o, now), o.version);
    }
    var m := ReleaseOrder(s.account, s.positions, o, reason, now);
    if m.Ok? && CloseWith(s, o, Closed(o, Cancelled, reason), m.value).Ok? {
      ReleaseIsPlain(s.account, s.positions, o, reason, now);
      hide ReleaseEntry;
      CloseExtends(s, o, Closed(o, Cancelled, reason), m.value);
    }
  }

  lemma {:induction false} CancelEachExtends(s: Store, pending: seq<Order>, n: nat, now: int, reason: Reason,
                                             buysOnly: bool)
    requires n <= |pending| && CancelEach(s, pending, n, now, reason, buysOnly).Ok?
    ensures Continues(s, CancelEach(s, pending, n, now, reason, buysOnly).value)
  {
    hide CancelOne;
    hide Continues;
    ContinuesItself(s);
    if n > 0 {
      CancelEachExtends(s, pending, n - 1, now, reason, buysOnly);
      var before := CancelEach(s, pending, n - 1, now, reason, buysOnly).value;
      CancelOneExtends(before, pending[n - 1], now, reason, buysOnly);
      ContinuesThrough(s, before, CancelEach(s, pending, n, now, reason, buysOnly).value);
    }
  }

  lemma CancelBeforeOpenExtends(s: Store, now: int, reason: Reason, buysOnly: bool)
    requires CancelBeforeOpen(s, now, reason, buysOnly).Ok?
    ensures Continues(s, CancelBeforeOpen(s, now, reason, buysOnly).value)
  {
    hide CancelEach;
    hide ListPending;
    hide Continues;
    CancelEachExtends(s, ListPending(s.orders), |ListPending(s.orders)|, now, reason, buysOnly);
  }

  lemma ReleaseLiveExtends(s: Store, o: Order, state: OrderState, reason: Reason, at: int, now: int)
    requires ReleaseLive(s, o, state, reason, at, now).Ok?
    ensures Continues(s, ReleaseLive(s, o, state, reason, at, now).value)
  {
    hide ReleaseOrder;
    hide CloseWith;
    hide Continues;
    var m := ReleaseOrder(s.account, s.positions, o, reason, now).value;
    ReleaseIsPlain(s.account, s.positions, o, reason, now);
    hide ReleaseEntry;
    CloseExtends(s, o, Closed(o, state, reason), m.(entries := EffectiveAs(m.entries, at)));
  }

  /** A fill that leaves every order of its opening date and name within its capacity, if it was. */
  ghost predicate FillFits(s: Store, fill: Fill) {
    forall n :: 0 <= n < |s.orders| && FilledFor(s.fills, s.orders[n]) <= s.orders[n].capacity ==>
      FilledFor(s.fills + [fill], s.orders[n]) <= s.orders[n].capacity
  }

  /** A fill and its entry, recorded together. */
  lemma FillExtends(t: Store, e: LedgerEntry, fill: Fill)
    requires !HasKey(t.ledger, e.key) && Proper(t.ledger, e) && FillCash()(e) == BookMeaning.NetFlow()(fill)
    requires FillFits(t, fill) && AtAnOpening(t.orders, fill)
    ensures Continues(t, t.(ledger := t.ledger + [e], fills := t.fills + [fill]))
  {
    var u := t.(ledger := t.ledger + [e], fills := t.fills + [fill]);
    SumAppend(t.ledger, e, FillCash());
    SumAppend(t.fills, fill, BookMeaning.NetFlow());
    assert u.ledger[..|t.ledger|] == t.ledger;
    hide Proper;
    hide Sum;
    hide HasKey;
    assert Grows(t.ledger, u.ledger);
    hide Grows;
    hide FilledFor;
    hide OpensAt;
  }

  lemma LoggedOnce(s: Store, e: LedgerEntry)
    requires InsertLedger(s, [e]).Ok?
    ensures !HasKey(s.ledger, e.key) && InsertLedger(s, [e]).value == s.(ledger := s.ledger + [e])
  {
    hide HasKey;
    assert [e][..0] == [];
    assert InsertLedger(s, [e][..0]) == Ok(s);
  }

  /** What is stored by a fill: the order saved, one entry and the fill. */
  lemma FillStores(s: Store, o: Order, fill: Fill, state: OrderState, reason: Reason, e: LedgerEntry)
    requires FillLive(s, o, fill, state, reason).Ok? && ApplyFill(s.account, s.positions, fill).value.entries == [e]
    ensures SaveOrder(s, Closed(o, state, reason), o.version).Ok?
    ensures var saved, t := SaveOrder(s, Closed(o, state, reason), o.version).value,
      FillLive(s, o, fill, state, reason).value;
      && saved == s.(orders := saved.orders) && !HasKey(saved.ledger, e.key)
      && t.ledger == saved.ledger + [e] && t.fills == saved.fills + [fill] && t.orders == saved.orders
      && t.claims == saved.claims
      && t.account == ApplyFill(s.account, s.positions, fill).value.account
  {
    hide ApplyFill;
    hide HasKey;
    LoggedOnce(SaveOrder(s, Closed(o, state, reason), o.version).value, e);
    hide InsertLedger;
  }

  lemma FillLiveExtends(s: Store, o: Order, fill: Fill, state: OrderState, reason: Reason)
    requires FillLive(s, o, fill, state, reason).Ok? && FillFits(s, fill) && AtAnOpening(s.orders, fill)
    ensures Continues(s, FillLive(s, o, fill, state, reason).value)
  {
    hide ApplyFill;
    hide SaveOrder;
    hide CloseWith;
    hide Proper;
    hide Grows;
    hide HasKey;
    hide OpensAt;
    hide Sum;
    var e := FillIsProper(s.ledger, s.account, s.positions, fill);
    var closed := Closed(o, state, reason);
    FillStores(s, o, fill, state, reason, e);
    var saved := SaveOrder(s, closed, o.version).value;
    SaveExtends(s, closed, o.version);
    StillOpensAt(s, saved, fill.effectiveAt, fill.instrument);
    FillExtends(saved, e, fill);
    var t := saved.(ledger := saved.ledger + [e], fills := saved.fills + [fill]);
    ContinuesThrough(s, saved, t);
    SameHistory(s, t, FillLive(s, o, fill, state, reason).value);
  }

  lemma {:induction false} LimitIsSmallest(orders: seq<Order>, date: int, id: int, n: nat)
    requires n < |orders| && orders[n].instrument == id && DateOf(orders[n].targetOpenAt) == date
    ensures CapacityLimit(orders, date, id).Some? && CapacityLimit(orders, date, id).value <= orders[n].capacity
  {
    if n < |orders| - 1 {
      LimitIsSmallest(orders[..|orders| - 1], date, id, n);
    }
  }

  lemma FitsOne(s: Store, o: Order, fill: Fill, n: nat)
    requires n < |s.orders| && FilledFor(s.fills, s.orders[n]) <= s.orders[n].capacity
    requires fill.instrument == o.instrument && fill.effectiveAt == o.targetOpenAt
    requires var limit := CapacityLimit(s.orders, DateOf(o.targetOpenAt), o.instrument);
      limit.Some? && 0 < fill.quantity <= NotBelowZero(limit.value - FilledFor(s.fills, o))
    ensures FilledFor(s.fills + [fill], s.orders[n]) <= s.orders[n].capacity
  {
    var p := s.orders[n];
    SumAppend(s.fills, fill, FilledOn(DateOf(p.targetOpenAt), p.instrument));
    if p.instrument == o.instrument && DateOf(p.targetOpenAt) == DateOf(o.targetOpenAt) {
      LimitIsSmallest(s.orders, DateOf(o.targetOpenAt), o.instrument, n);
    }
    hide CapacityLimit;
    hide Sum;
  }

  /** What the matcher fills is within what is left of the smallest capacity for the opening date and the name. */
  lemma MatchFits(s: Store, data: Snapshot, o: Order, peak: int, now: int)
    requires LiveMatch(s, data, o, peak, now).Ok? && LiveMatch(s, data, o, peak, now).value.fill.Some?
    ensures FillFits(s, LiveMatch(s, data, o, peak, now).value.fill.value)
    ensures OpensAt(s.orders, o.targetOpenAt, o.instrument) ==>
      AtAnOpening(s.orders, LiveMatch(s, data, o, peak, now).value.fill.value)
  {
    var fill := LiveMatch(s, data, o, peak, now).value.fill.value;
    LiveMatchFits(s, data, o, peak, now);
    hide LiveMatch;
    hide CapacityLimit;
    hide FilledFor;
    forall n | 0 <= n < |s.orders| && FilledFor(s.fills, s.orders[n]) <= s.orders[n].capacity
      ensures FilledFor(s.fills + [fill], s.orders[n]) <= s.orders[n].capacity
    {
      FitsOne(s, o, fill, n);
    }
  }

  lemma LiveMatchFits(s: Store, data: Snapshot, o: Order, peak: int, now: int)
    requires LiveMatch(s, data, o, peak, now).Ok? && LiveMatch(s, data, o, peak, now).value.fill.Some?
    ensures var fill, limit := LiveMatch(s, data, o, peak, now).value.fill.value,
      CapacityLimit(s.orders, DateOf(o.targetOpenAt), o.instrument);
      && fill.instrument == o.instrument && fill.effectiveAt == o.targetOpenAt <= fill.recordedAt && limit.Some?
      && 0 < fill.quantity <= NotBelowZero(limit.value - FilledFor(s.fills, o))
  {
    hide SelectSnapshot;
    hide ComputeNAV;
    hide OpeningsFor;
    hide CapacityLimit;
    hide ListPending;
    hide Sum;
    hide MatchAtOpen;
    var date, openings := DateOf(o.targetOpenAt), OpeningsFor(data.bars, o);
    var prior, limit := SelectSnapshot(data, o.targetOpenAt - 1), CapacityLimit(s.orders, date, o.instrument).value;
    var nav := ComputeNAV(s.account, s.positions, prior, openings).value;
    var input := MatchInput(
      o, At(openings, o.instrument), NotBelowZero(limit - FilledFor(s.fills, o)),
      PortfolioInput(s.account, s.positions, ListPending(s.orders), prior, Evaluation(false, []), s.account.policy, nav,
                     peak, Sum(s.fills, GrossOn(date)), openings, StrategyParameters([], 0.0, 0.0, 0.0, 0)),
      now);
    assert LiveMatch(s, data, o, peak, now) == MatchAtOpen(input);
    MatchIsWithin(input);
  }

  lemma MatchIsWithin(input: MatchInput)
    requires MatchAtOpen(input).Ok? && MatchAtOpen(input).value.fill.Some?
    ensures var fill := MatchAtOpen(input).value.fill.value;
      && fill.instrument == input.order.instrument && fill.effectiveAt == input.order.targetOpenAt <= fill.recordedAt
      && 0 < fill.quantity <= input.availableCapacity
  {
    MatchedFillIsAcceptable(input);
    hide MatchAtOpen;
  }

  lemma ExecuteOneExtends(s: Store, data: Snapshot, o: Order, peak: int, now: int)
    requires ExecuteOne(s, data, o, peak, now).Ok? && OpensAt(s.orders, o.targetOpenAt, o.instrument)
    ensures Continues(s, ExecuteOne(s, data, o, peak, now).value)
  {
    hide Tradable;
    hide LiveMatch;
    hide FillLive;
    hide ReleaseLive;
    hide SaveOrder;
    hide ExecutionBlocked;
    hide Continues;
    var advanced, t := AdvanceOrder(o, now), ExecuteOne(s, data, o, peak, now).value;
    ContinuesItself(s);
    if Tradable(s, data, advanced) {
      var matched := LiveMatch(s, data, advanced, peak, now).value;
      match matched.fill
      case Some(fill) =>
        MatchFits(s, data, advanced, peak, now);
        hide FillFits;
        FillLiveExtends(s, o, fill, if matched.cancelledQuantity > 0 then PartiallyFilled else Filled, matched.reason);
      case None => ReleaseLiveExtends(s, o, Rejected, matched.reason, advanced.targetOpenAt, now);
    } else if now < advanced.expiresAt {
      if o.state != advanced.state {
        SaveExtends(s, advanced, o.version);
      }
    } else {
      ReleaseLiveExtends(s, o, Expired,
                         if ExecutionBlocked(s, data, advanced) then ActionUnresolved else DataUnavailable,
                         advanced.expiresAt, now);
    }
  }

  lemma StillOpensAfter(s: Store, t: Store, at: int, id: int)
    requires Continues(s, t) && OpensAt(s.orders, at, id)
    ensures OpensAt(t.orders, at, id)
  {
    StillOpensAt(s, t, at, id);
    hide OpensAt;
    hide Extends;
  }

  lemma {:induction false} ExecuteEachExtends(s: Store, data: Snapshot, pending: seq<Order>, n: nat, peak: int,
                                              now: int, date: Option<int>)
    requires n <= |pending| && ExecuteEach(s, data, pending, n, peak, now, date).Ok?
    requires forall j :: 0 <= j < |pending| ==> OpensAt(s.orders, pending[j].targetOpenAt, pending[j].instrument)
    ensures Continues(s, ExecuteEach(s, data, pending, n, peak, now, date).value)
  {
    hide ExecuteOne;
    hide Continues;
    ContinuesItself(s);
    if n > 0 {
      ExecuteEachExtends(s, data, pending, n - 1, peak, now, date);
      var before := ExecuteEach(s, data, pending, n - 1, peak, now, date).value;
      if DueOn(pending[n - 1], now, date) {
        StillOpensAfter(s, before, pending[n - 1].targetOpenAt, pending[n - 1].instrument);
        ExecuteOneExtends(before, data, pending[n - 1], peak, now);
        ContinuesThrough(s, before, ExecuteOne(before, data, pending[n - 1], peak, now).value);
      }
    }
  }

  lemma SettleLiveExtends(s: Store, calendar: Calendar, through: int, now: int)
    requires SettleLive(s, calendar, through, now).Ok?
    ensures Continues(s, SettleLive(s, calendar, through, now).value)
  {
    hide SettleReceivables;
    hide Sort;
    hide Filter;
    hide ClaimAll;
    hide InsertLedger;
    hide Continues;
    var sales := Sort(Filter(s.ledger, Unsettled(s.ledger)), ByEffectiveTime());
    var m := SettleReceivables(s.account, sales, calendar, through).value;
    var claimed := ClaimAll(s, m.entries).value;
    var logged := InsertLedger(claimed, RecordedAs(m.entries, now)).value;
    ClaimExtends(s, m.entries);
    forall i | 0 <= i < |sales|
      ensures sales[i] in s.ledger
    {
      SortKeepsElements(Filter(s.ledger, Unsettled(s.ledger)), ByEffectiveTime(), sales[i]);
      FilterKeeps(s.ledger, Unsettled(s.ledger), sales[i]);
    }
    SettlementsAreQuiet(s.ledger, s.account, sales, calendar, through);
    hide Quiet;
    RecordedAreQuiet(s.ledger, m.entries, now);
    LogExtends(claimed, RecordedAs(m.entries, now));
    ContinuesThrough(s, claimed, logged);
    SameHistory(s, logged, SettleLive(s, calendar, through, now).value);
  }

  lemma CancelSplitOneExtends(s: Store, a: CorporateAction, id: OrderId, now: int)
    requires CancelSplitOne(s, a, id, now).Ok?
    ensures Continues(s, CancelSplitOne(s, a, id, now).value)
  {
    hide ReleaseOrder;
    hide CloseWith;
    hide Continues;
    ContinuesItself(s);
    var k := Find(s.orders, id);
    if k < |s.orders| && Replay.CancelledBySplit(s.orders[k], a) {
      var m := ReleaseOrder(s.account, s.positions, s.orders[k], PreOpenAction, now).value;
      ReleaseIsPlain(s.account, s.positions, s.orders[k], PreOpenAction, now);
      hide ReleaseEntry;
      CloseExtends(s, s.orders[k], Closed(s.orders[k], Cancelled, PreOpenAction),
                   m.(entries := RecordedAs(EffectiveAs(m.entries, a.effectiveAt), now)));
    }
  }

  lemma {:induction false} CancelSplitExtends(s: Store, a: CorporateAction, pending: seq<Order>, n: nat, now: int)
    requires n <= |pending| && CancelSplit(s, a, pending, n, now).Ok?
    ensures Continues(s, CancelSplit(s, a, pending, n, now).value)
  {
    hide CancelSplitOne;
    hide Continues;
    ContinuesItself(s);
    if n > 0 {
      CancelSplitExtends(s, a, pending, n - 1, now);
      var before := CancelSplit(s, a, pending, n - 1, now).value;
      CancelSplitOneExtends(before, a, pending[n - 1].id, now);
      ContinuesThrough(s, before, CancelSplit(s, a, pending, n, now).value);
    }
  }

  lemma ClaimOneExtends(s: Store, k: EventKey)
    requires ClaimEvent(s, k).Ok?
    ensures Continues(s, ClaimEvent(s, k).value) && ClaimEvent(s, k).value.ledger == s.ledger
  {
  }

  lemma TakeLiveExtends(s: Store, a: CorporateAction, now: int)
    requires TakeLive(s, a, now).Ok?
    ensures Continues(s, TakeLive(s, a, now).value)
  {
    hide ApplyCorporateAction;
    hide EligibleHolders;
    hide ClaimEvent;
    hide InsertLedger;
    hide Continues;
    var claimed := ClaimEvent(s, ActionKey(a.id)).value;
    var m := ApplyCorporateAction(s.account, s.positions, a, EligibleHolders(s.ledger, a)).value;
    var logged := InsertLedger(claimed, RecordedAs(m.entries, now)).value;
    ClaimOneExtends(s, ActionKey(a.id));
    ActionIsQuiet(s.ledger, s.account, s.positions, a, EligibleHolders(s.ledger, a));
    hide Quiet;
    RecordedAreQuiet(s.ledger, m.entries, now);
    LogExtends(claimed, RecordedAs(m.entries, now));
    ContinuesThrough(s, claimed, logged);
    SameHistory(s, logged, TakeLive(s, a, now).value);
  }

  lemma PayLiveExtends(s: Store, a: CorporateAction, through: int, now: int)
    requires PayLive(s, a, through, now).Ok?
    ensures Continues(s, PayLive(s, a, through, now).value)
  {
    hide PayDividend;
    hide ClaimEvent;
    hide InsertLedger;
    hide HasKey;
    hide Replay.FirstWithKey;
    hide Continues;
    ContinuesItself(s);
    if !HasKey(s.ledger, PaymentKey(a.id)) {
      var accrual := Replay.FirstWithKey(s.ledger, ActionKey(a.id)).value;
      var m := PayDividend(s.account, a, accrual, through).value;
      var claimed := ClaimEvent(s, PaymentKey(a.id)).value;
      var logged := InsertLedger(claimed, RecordedAs(m.entries, now)).value;
      ClaimOneExtends(s, PaymentKey(a.id));
      var _ := FirstWithKeyIsThere(s.ledger, ActionKey(a.id));
      PaymentIsQuiet(s.ledger, s.account, a, accrual, through);
      hide Quiet;
      RecordedAreQuiet(s.ledger, m.entries, now);
      LogExtends(claimed, RecordedAs(m.entries, now));
      ContinuesThrough(s, claimed, logged);
      SameHistory(s, logged, PayLive(s, a, through, now).value);
    }
  }

  lemma TakeUnlessBlockedExtends(s: Store, a: CorporateAction, now: int)
    requires TakeUnlessBlocked(s, a, now).Ok?
    ensures Continues(s, TakeUnlessBlocked(s, a, now).value.0)
  {
    hide CancelSplit;
    hide TakeLive;
    hide ListPending;
    hide ApplyCorporateAction;
    hide InventoryChanged;
    hide PriorOpeningUnresolved;
    hide Continues;
    ContinuesItself(s);
    var pending := ListPending(s.orders);
    if a.kind == Split {
      CancelSplitExtends(s, a, pending, |pending|, now);
    }
    var ready := if a.kind == Split then CancelSplit(s, a, pending, |pending|, now).value else s;
    if TakeLive(ready, a, now).Ok? {
      TakeLiveExtends(ready, a, now);
      ContinuesThrough(s, ready, TakeLive(ready, a, now).value);
    }
  }

  lemma ReconcileOneExtends(s: Store, a: CorporateAction, relevant: set<int>, through: int, now: int)
    requires ReconcileOne(s, a, relevant, through, now).Ok?
    ensures Continues(s, ReconcileOne(s, a, relevant, through, now).value)
  {
    hide TakeUnlessBlocked;
    hide PayLive;
    hide Continues;
    ContinuesItself(s);
    if InScope(s, a, relevant, through) && !(a.id in s.recorded && !SameActionEconomics(s.recorded[a.id], a)) {
      var taken := if a.id in s.recorded then s else TakeUnlessBlocked(s, a, now).value.0;
      if a.id !in s.recorded {
        TakeUnlessBlockedExtends(s, a, now);
      }
      if PayLive(taken, a, through, now).Ok? {
        PayLiveExtends(taken, a, through, now);
        ContinuesThrough(s, taken, PayLive(taken, a, through, now).value);
      }
    }
  }

  lemma {:induction false} ReconcileEachExtends(s: Store, actions: seq<CorporateAction>, n: nat, relevant: set<int>,
                                                through: int, now: int)
    requires n <= |actions| && ReconcileEach(s, actions, n, relevant, through, now).Ok?
    ensures Continues(s, ReconcileEach(s, actions, n, relevant, through, now).value)
  {
    hide ReconcileOne;
    hide Continues;
    ContinuesItself(s);
    if n > 0 {
      ReconcileEachExtends(s, actions, n - 1, relevant, through, now);
      var before := ReconcileEach(s, actions, n - 1, relevant, through, now).value;
      ReconcileOneExtends(before, actions[n - 1], relevant, through, now);
      ContinuesThrough(s, before, ReconcileEach(s, actions, n, relevant, through, now).value);
    }
  }

  // ---------- The commands ----------

  lemma PlaceExtends(s: Store, data: Result<Snapshot>, now: int, peak: int, r: PlaceRequest)
    ensures Extends(s, PlaceOrder(s, data, now, peak, r).After(s))
  {
    hide OrderToPlace;
    hide Reserve;
    hide Extends;
    ContinuesItself(s);
    if data.Ok? && r.quantity.Ok? && OrderToPlace(s, data.value, now, peak, r, r.quantity.value).Ok? {
      ReserveExtends(s, [OrderToPlace(s, data.value, now, peak, r, r.quantity.value).value]);
    }
  }

  lemma CancelExtends(s: Store, now: int, id: OrderId, expected: int)
    ensures Continues(s, CancelOrder(s, now, id, expected).After(s))
  {
    hide ReleaseOrder;
    hide CloseWith;
    hide SaveOrder;
    hide Continues;
    ContinuesItself(s);
    var n := Find(s.orders, id);
    if n < |s.orders| {
      var o := s.orders[n];
      if SaveOrder(s, AdvanceOrder(o, now), o.version).Ok? {
        SaveExtends(s, AdvanceOrder(o, now), o.version);
      }
      var m := ReleaseOrder(s.account, s.positions, o, UserCancelled, now);
      if m.Ok? && CloseWith(s, o, Closed(o, Cancelled, UserCancelled), m.value).Ok? {
        ReleaseIsPlain(s.account, s.positions, o, UserCancelled, now);
        hide ReleaseEntry;
        var t := CloseWith(s, o, Closed(o, Cancelled, UserCancelled), m.value).value;
        CloseExtends(s, o, Closed(o, Cancelled, UserCancelled), m.value);
        SameHistory(s, t, SaveAccount(t));
      }
    }
  }

  lemma ConfigureExtends(s: Store, data: Result<Snapshot>, now: int, r: ConfigureRequest)
    ensures Continues(s, ConfigureAutomation(s, data, now, r).After(s))
  {
    hide CancelBeforeOpen;
    hide NextOpening;
    hide Continues;
    ContinuesItself(s);
    var changed := Reconfigures(s.account, r);
    var opening := if r.enabled || changed then NextOpening(CalendarOf(data), now) else Ok(0);
    if opening.Ok? {
      var ready := if changed then WithPending(s, r, opening.value) else s;
      SameHistory(s, s, ready);
      SameHistory(s, s, SaveAccount(SetAutomation(ready, r.enabled)));
      var reason := if r.enabled then ConfigurationChanged else UserPaused;
      if CancelBeforeOpen(ready, now, reason, r.enabled).Ok? {
        var t := CancelBeforeOpen(ready, now, reason, r.enabled).value;
        CancelBeforeOpenExtends(ready, now, reason, r.enabled);
        ContinuesThrough(s, ready, t);
        SameHistory(s, t, SaveAccount(SetAutomation(t, r.enabled)));
      }
    }
  }

  lemma AdoptExtends(s: Store, now: int)
    ensures Continues(s, AdoptConfig(s, now).After(s))
  {
  }

  lemma PauseExtends(s: Store, now: int)
    ensures Continues(s, PauseAutomation(s, now).After(s))
  {
    hide CancelBeforeOpen;
    hide Continues;
    ContinuesItself(s);
    if CancelBeforeOpen(s, now, DrawdownPause, false).Ok? {
      var t := CancelBeforeOpen(s, now, DrawdownPause, false).value;
      CancelBeforeOpenExtends(s, now, DrawdownPause, false);
      SameHistory(s, t, PauseAutomation(s, now).After(s));
    }
  }

  lemma IssueExtends(s: Store, data: Snapshot, run: EvaluationRun, target: Session, now: int,
                     planned: seq<PlannedOrder>)
    ensures Extends(s, IssueBatch(s, data, run, target, now, planned).After(s))
  {
    hide SizeBatch;
    hide Reserve;
    hide NextSession;
    hide NextSettlement;
    hide Extends;
    ContinuesItself(s);
    var following := NextSession(data.calendar, target.closeAt);
    if following.Ok? {
      var batch := SizeBatch(s, data, run.date, target, following.value.closeAt, now, planned, |planned|, run.newId);
      if batch.Ok? {
        ReserveExtends(s, batch.value.0);
      }
    }
  }

  lemma EvaluateExtends(s: Store, data: Snapshot, now: int, run: EvaluationRun)
    ensures Extends(s, EvaluateAccount(s, data, now, run).After(s))
  {
    hide PauseAutomation;
    hide IssueBatch;
    hide BuildRebalance;
    hide ComputeNAV;
    hide ListPending;
    hide MayIssue;
    hide NextSession;
    hide SessionAmong;
    hide Extends;
    ContinuesItself(s);
    var session := SessionOn(data.calendar, run.date);
    if session.Ok? {
      var target := NextSession(data.calendar, session.value.closeAt);
      var nav := ComputeNAV(s.account, s.positions, data, map[]);
      if target.Ok? && nav.Ok? {
        var plan := BuildRebalance(LivePlanInput(s, data, run, target.value, nav.value));
        PauseExtends(s, now);
        if plan.Ok? {
          IssueExtends(s, data, run, target.value, now, plan.value.orders);
        }
      }
    }
  }

  lemma PendingOpens(orders: seq<Order>, pending: seq<Order>)
    requires pending == Sort(ListPending(orders), BySideThenName())
    ensures forall j :: 0 <= j < |pending| ==> OpensAt(orders, pending[j].targetOpenAt, pending[j].instrument)
  {
    var listed := ListPending(orders);
    forall j | 0 <= j < |pending|
      ensures OpensAt(orders, pending[j].targetOpenAt, pending[j].instrument)
    {
      SortKeepsElements(listed, BySideThenName(), pending[j]);
      SortKeepsElements(Filter(orders, IsOpen()), ByInstrumentThenId(), pending[j]);
      FilterKeeps(orders, IsOpen(), pending[j]);
    }
  }

  lemma ExecuteExtends(s: Store, data: Snapshot, peak: int, now: int, date: Option<int>)
    ensures Continues(s, ExecuteOrders(s, data, peak, now, date).After(s))
  {
    var pending := Sort(ListPending(s.orders), BySideThenName());
    PendingOpens(s.orders, pending);
    hide ExecuteEach;
    hide ListPending;
    hide Sort;
    hide OpensAt;
    hide Continues;
    ContinuesItself(s);
    if ExecuteEach(s, data, pending, |pending|, peak, now, date).Ok? {
      var t := ExecuteEach(s, data, pending, |pending|, peak, now, date).value;
      ExecuteEachExtends(s, data, pending, |pending|, peak, now, date);
      SameHistory(s, t, SaveIfChanged(s, t));
    }
  }

  lemma ReconcileExtends(s: Store, data: Snapshot, universe: set<int>, through: int, now: int)
    ensures Continues(s, ReconcileAccount(s, data, universe, through, now).After(s))
  {
    hide SettleLive;
    hide ReconcileEach;
    hide Sort;
    hide Relevant;
    hide Continues;
    ContinuesItself(s);
    if through <= now && SettleLive(s, data.calendar, through, now).Ok? {
      SettleLiveExtends(s, data.calendar, through, now);
      var settled, actions := SettleLive(s, data.calendar, through, now).value, Sort(data.actions, ByEffectThenId());
      if ReconcileEach(settled, actions, |actions|, Relevant(s, universe), through, now).Ok? {
        var t := ReconcileEach(settled, actions, |actions|, Relevant(s, universe), through, now).value;
        ReconcileEachExtends(settled, actions, |actions|, Relevant(s, universe), through, now);
        ContinuesThrough(s, settled, t);
        SameHistory(s, t, SaveIfChanged(s, t));
      }
    }
  }

  lemma RunExtends(s: Store, c: Command)
    ensures Extends(s, Run(s, c).After(s))
  {
    hide Extends;
    hide PlaceOrder;
    hide CancelOrder;
    hide ConfigureAutomation;
    hide AdoptConfig;
    hide EvaluateAccount;
    hide ExecuteOrders;
    hide ReconcileAccount;
    match c
    case Place(data, now, peak, r) => PlaceExtends(s, data, now, peak, r);
    case Cancel(now, id, expected) => CancelExtends(s, now, id, expected);
    case Configure(data, now, r) => ConfigureExtends(s, data, now, r);
    case Adopt(now) => AdoptExtends(s, now);
    case Evaluate(data, now, run) => EvaluateExtends(s, data, now, run);
    case Execute(data, now, peak, date) => ExecuteExtends(s, data, peak, now, date);
    case Reconcile(data, universe, through, now) => ReconcileExtends(s, data, universe, through, now);
  }

  /** Whatever commands follow, nothing stored so far is rewritten. */
  lemma {:induction false} HistoryIsKept(s: Store, commands: seq<Command>, n: nat)
    requires n <= |commands|
    ensures Extends(AfterAll(s, commands[..n]), AfterAll(s, commands))
    decreases |commands|
  {
    hide Extends;
    hide Run;
    if n == |commands| {
      assert commands[..n] == commands;
      ContinuesItself(AfterAll(s, commands));
    } else {
      var init := commands[..|commands| - 1];
      assert init[..n] == commands[..n];
      HistoryIsKept(s, init, n);
      RunExtends(AfterAll(s, init), commands[|commands| - 1]);
      ExtendsThrough(AfterAll(s, commands[..n]), AfterAll(s, init), AfterAll(s, commands));
    }
  }
}
