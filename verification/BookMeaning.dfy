// What the buckets of a book mean, in every state it reaches: reserves are what open orders hold, unsettled cash is the
// proceeds of sales not yet settled, dividends are accruals not yet paid, every balance and holding is the sum of its
// ledger entries, and cash is conserved.
module BookMeaning {
  import opened Outcomes
  import opened Money
  import opened Domain
  import opened Calendars
  import opened Lists
  import opened Sums
  import opened Holdings
  import opened Ledger
  import opened Reservations
  import opened Replay
  import opened BookEvents

  // ---------- Measures ----------

  /** Proceeds of a sale that has not been settled. */
  function Outstanding(settled: set<EventKey>): LedgerEntry -> int {
    (e: LedgerEntry) => if e.kind == SellFill && e.key !in settled then e.delta.unsettled else 0
  }

  /** A dividend accrued and not paid. */
  function Unpaid(paid: set<int>): LedgerEntry -> int {
    (e: LedgerEntry) => if e.key.ActionKey? && e.key.action !in paid then e.delta.dividends else 0
  }

  /** Cash a corporate action brings: in lieu of a fraction of a share, or as a dividend. */
  function ActionIncome(): LedgerEntry -> int {
    (e: LedgerEntry) => if e.key.ActionKey? then e.delta.available + e.delta.dividends else 0
  }

  function NetFlow(): Fill -> int {
    (f: Fill) => if f.side == Buy then -(f.gross + f.fee) else f.gross - f.fee
  }

  function CashOf(b: Balances): int {
    b.available + b.reserved + b.unsettled + b.dividends
  }

  // ---------- The invariant ----------

  /** Balances reached by applying the deltas of some entries in the order they were recorded. */
  function FoldEntries(start: Balances, ledger: seq<LedgerEntry>): Result<Balances> {
    if ledger == [] then Ok(start)
    else
      var before :- FoldEntries(start, ledger[..|ledger| - 1]);
      ApplyDelta(before, ledger[|ledger| - 1].delta)
  }

  function StartBalances(initialCash: int): Balances {
    Balances(initialCash, 0, 0, 0)
  }

  /** Balances and holdings are the sums of the ledger, and the ledger applied from scratch gives the balances. */
  ghost predicate Balanced(b: Book) {
    && FoldEntries(StartBalances(b.account.initialCash), b.ledger) == Ok(b.account.balances)
    && (forall k: Bucket :: Amount(b.account.balances, k)
          == Sum(b.ledger, In(k)) + if k == AvailableCash then b.account.initialCash else 0)
    && (forall id :: Held(b.positions, id) == Sum(b.ledger, SharesIn(id)))
  }

  ghost predicate ObligationsMatch(b: Book) {
    && b.account.balances.unsettled == Sum(b.ledger, Outstanding(b.settled))
    && b.account.balances.dividends == Sum(b.ledger, Unpaid(b.paid))
  }

  /** Total cash: the initial cash, less what buys cost, plus what sells brought, plus dividends and cash in lieu. */
  ghost predicate Conserved(b: Book) {
    CashOf(b.account.balances) == b.account.initialCash + Sum(b.fills, NetFlow()) + Sum(b.ledger, ActionIncome())
  }

  predicate SoundEntry(applied: set<int>, e: LedgerEntry) {
    && (e.kind == SellFill ==> e.key.FillKey? && e.delta.unsettled >= 0)
    && (e.key.ActionKey? ==> e.key.action in applied && e.delta.dividends >= 0)
  }

  ghost predicate Keyed(b: Book) {
    && b.paid <= b.applied.Keys
    && (forall i :: 0 <= i < |b.ledger| ==> SoundEntry(b.applied.Keys, b.ledger[i]))
    && (forall i, j :: 0 <= i < j < |b.ledger| && b.ledger[i].key.ActionKey? ==> b.ledger[i].key != b.ledger[j].key)
    && (forall n :: 0 <= n < |b.orders| && !b.orders[n].Terminal() ==> FillKey(b.orders[n].id) !in b.settled)
  }

  ghost predicate Sound(b: Book) {
    BackedBook(b) && Balanced(b) && ObligationsMatch(b) && Conserved(b) && Keyed(b)
  }

  /** No open order has been filled already; holds between the steps of a session. */
  ghost predicate OpenAreUnfilled(b: Book) {
    forall n, i :: 0 <= n < |b.orders| && 0 <= i < |b.ledger| && !b.orders[n].Terminal()
      ==> b.ledger[i].key != FillKey(b.orders[n].id)
  }

  lemma NewBookIsSound(initialCash: int)
    requires 0 < initialCash <= MAX_INITIAL_CASH
    ensures Sound(NewBook(initialCash)) && OpenAreUnfilled(NewBook(initialCash))
  {
  }

  // ---------- One entry ----------

  lemma PostKeepsBalanced(before: Book, after: Book, e: LedgerEntry)
    requires Balanced(before) && Posts(before, after, e)
    ensures Balanced(after)
  {
    assert (before.ledger + [e])[..|before.ledger|] == before.ledger;
    forall k: Bucket
      ensures Amount(after.account.balances, k)
           == Sum(after.ledger, In(k)) + if k == AvailableCash then after.account.initialCash else 0
    {
      assert Amount(before.account.balances, k)
             == Sum(before.ledger, In(k)) + if k == AvailableCash then before.account.initialCash else 0;
      SumAppend(before.ledger, e, In(k));
    }
    forall id
      ensures Held(after.positions, id) == Sum(after.ledger, SharesIn(id))
    {
      SumAppend(before.ledger, e, SharesIn(id));
    }
  }

  lemma PostSums(before: Book, after: Book, e: LedgerEntry)
    requires Posts(before, after, e)
    ensures Sum(after.ledger, Outstanding(before.settled))
         == Sum(before.ledger, Outstanding(before.settled)) + Outstanding(before.settled)(e)
    ensures Sum(after.ledger, Unpaid(before.paid)) == Sum(before.ledger, Unpaid(before.paid)) + Unpaid(before.paid)(e)
    ensures Sum(after.ledger, ActionIncome()) == Sum(before.ledger, ActionIncome()) + ActionIncome()(e)
    ensures after.account.balances.unsettled == before.account.balances.unsettled + e.delta.unsettled
    ensures after.account.balances.dividends == before.account.balances.dividends + e.delta.dividends
    ensures CashOf(after.account.balances) == CashOf(before.account.balances) + CashOf(e.delta)
  {
    SumAppend(before.ledger, e, Outstanding(before.settled));
    SumAppend(before.ledger, e, Unpaid(before.paid));
    SumAppend(before.ledger, e, ActionIncome());
  }

  /** An entry that moves cash between available and reserved, under a key of its own kind. */
  predicate TransferEntry(e: LedgerEntry) {
    && (e.key.ReserveKey? || e.key.ReleaseKey?) && e.kind != SellFill
    && e.delta.unsettled == 0 && e.delta.dividends == 0 && CashOf(e.delta) == 0
  }

  lemma TransferKeepsSound(before: Book, after: Book, e: LedgerEntry)
    requires Sound(before) && Posts(before, after, e) && TransferEntry(e)
    requires BackedBook(after) && SameRecords(before, after)
    requires forall n :: 0 <= n < |after.orders| && !after.orders[n].Terminal() ==>
      FillKey(after.orders[n].id) !in before.settled
    ensures Sound(after)
  {
    PostKeepsBalanced(before, after, e);
    PostSums(before, after, e);
    hide BackedBook;
    hide Balanced;
    hide Sum;
  }

  // ---------- Events ----------

  lemma SoundParts(b: Book)
    requires Sound(b)
    ensures BackedBook(b) && Balanced(b) && ObligationsMatch(b) && Conserved(b) && Keyed(b)
  {
    hide BackedBook;
    hide Balanced;
    hide ObligationsMatch;
    hide Conserved;
    hide Keyed;
  }

  /** Orders closed or added leave every open order unsettled, if the added one is. */
  lemma OpenStayUnsettled(b: Book, orders: seq<Order>)
    requires Keyed(b) && |orders| >= |b.orders|
    requires forall n :: 0 <= n < |b.orders| ==> orders[n] == b.orders[n] || orders[n].Terminal()
    requires forall n :: |b.orders| <= n < |orders| ==> FillKey(orders[n].id) !in b.settled
    ensures forall n :: 0 <= n < |orders| && !orders[n].Terminal() ==> FillKey(orders[n].id) !in b.settled
  {
  }

  lemma ReserveEntryTransfers(account: Account, o: Order)
    ensures TransferEntry(ReserveEntry(account, o))
  {
  }

  lemma IssueKeepsSound(b: Book, o: Order)
    requires Sound(b) && Issue(b, o).Ok? && FillKey(o.id) !in b.settled
    ensures Sound(Issue(b, o).value)
  {
    hide Sound;
    hide BackedBook;
    hide Issue;
    hide Posts;
    hide Balanced;
    hide ObligationsMatch;
    hide Conserved;
    hide Keyed;
    hide WellFormedReservation;
    hide TransferEntry;
    hide ReserveEntry;
    var after := Issue(b, o).value;
    SoundParts(b);
    IssuePosts(b, o);
    OpenStayUnsettled(b, after.orders);
    ReserveEntryTransfers(b.account, o);
    TransferKeepsSound(b, after, ReserveEntry(b.account, o));
  }

  lemma ReleaseKeepsSound(b: Book, n: nat, why: Reason, state: OrderState, now: int)
    requires Sound(b) && n < |b.orders| && !b.orders[n].Terminal()
    requires state != Pending && state != AwaitingBar
    requires CloseUnfilled(b, n, why, state, now).Ok?
    ensures Sound(CloseUnfilled(b, n, why, state, now).value)
  {
    hide Sound;
    hide BackedBook;
    hide CloseUnfilled;
    hide Posts;
    hide Balanced;
    hide ObligationsMatch;
    hide Conserved;
    hide Keyed;
    var after := CloseUnfilled(b, n, why, state, now).value;
    SoundParts(b);
    ReleasePosts(b, n, why, state, now);
    OpenStayUnsettled(b, after.orders);
    TransferKeepsSound(b, after, ReleaseEntry(b.account, b.orders[n], Released(why), now));
  }

  lemma FillKeepsKeys(b: Book, after: Book, e: LedgerEntry)
    requires Keyed(b) && after.ledger == b.ledger + [e]
    requires after.applied == b.applied && after.paid == b.paid && after.settled == b.settled
    requires e.key.FillKey? && e.delta.unsettled >= 0
    requires |after.orders| == |b.orders|
    requires forall n :: 0 <= n < |b.orders| ==> after.orders[n] == b.orders[n] || after.orders[n].Terminal()
    ensures Keyed(after)
  {
  }

  lemma FillKeepsSound(b: Book, n: nat, fill: Fill, partial: bool)
    requires Sound(b) && n < |b.orders| && !b.orders[n].Terminal() && Closes(fill, b.orders[n])
    requires CloseFilled(b, n, fill, partial).Ok?
    ensures Sound(CloseFilled(b, n, fill, partial).value)
  {
    hide Sound;
    hide BackedBook;
    hide CloseFilled;
    var after := CloseFilled(b, n, fill, partial).value;
    SoundParts(b);
    FillPosts(b, n, fill, partial);
    FillOfOpenOrder(b, after, n, fill);
  }

  lemma FillOfOpenOrder(b: Book, after: Book, n: nat, fill: Fill)
    requires Sound(b) && BackedBook(after) && n < |b.orders| && !b.orders[n].Terminal()
    requires after.fills == b.fills + [fill] && SameRecords(b, after.(fills := b.fills))
    requires |after.orders| == |b.orders|
    requires forall k :: 0 <= k < |b.orders| ==> after.orders[k] == b.orders[k] || after.orders[k].Terminal()
    requires fill.orderId == b.orders[n].id && |after.ledger| > 0
    requires var e := after.ledger[|after.ledger| - 1];
      && Posts(b, after, e) && e.key == FillKey(fill.orderId)
      && e.kind == (if fill.side == Buy then BuyFill else SellFill)
      && e.delta == (if fill.side == Buy
                     then Balances(fill.reservedCash - fill.gross - fill.fee, -fill.reservedCash, 0, 0)
                     else Balances(0, 0, fill.gross - fill.fee, 0))
      && (fill.side == Sell ==> fill.fee <= fill.gross)
    ensures Sound(after)
  {
    hide BackedBook;
    hide Balanced;
    hide Sum;
    var e := after.ledger[|after.ledger| - 1];
    PostKeepsBalanced(b, after, e);
    PostSums(b, after, e);
    SumAppend(b.fills, fill, NetFlow());
    assert FillKey(fill.orderId) !in b.settled;
    FillKeepsKeys(b, after, e);
    hide Posts;
    hide Keyed;
  }

  lemma ActionKeepsKeys(b: Book, after: Book, e: LedgerEntry, id: int)
    requires Keyed(b) && id !in b.applied && after.ledger == b.ledger + [e]
    requires after.applied.Keys == b.applied.Keys + {id} && after.paid == b.paid && after.settled == b.settled
    requires after.orders == b.orders && e.key == ActionKey(id) && e.kind != SellFill && e.delta.dividends >= 0
    ensures Keyed(after)
  {
    forall i | 0 <= i < |b.ledger|
      ensures SoundEntry(after.applied.Keys, b.ledger[i]) && b.ledger[i].key != e.key
    {
      assert SoundEntry(b.applied.Keys, b.ledger[i]);
    }
  }

  lemma ActionKeepsSound(b: Book, a: CorporateAction)
    requires Sound(b) && ApplyAction(b, a).Ok? && a.id !in b.applied
    ensures Sound(ApplyAction(b, a).value)
  {
    hide BackedBook;
    hide Sum;
    ActionPosts(b, a);
    var after := ApplyAction(b, a).value;
    hide ApplyAction;
    var e := after.ledger[|after.ledger| - 1];
    PostKeepsBalanced(b, after, e);
    PostSums(b, after, e);
    ActionKeepsKeys(b, after, e, a.id);
    hide Balanced;
    hide Keyed;
  }

  lemma PaidOnce(ledger: seq<LedgerEntry>, paid: set<int>, i: nat, id: int)
    requires i < |ledger| && ledger[i].key == ActionKey(id) && id !in paid
    requires forall k :: 0 <= k < |ledger| && k != i ==> ledger[k].key != ActionKey(id)
    ensures Sum(ledger, Unpaid(paid + {id})) == Sum(ledger, Unpaid(paid)) - ledger[i].delta.dividends
  {
    SumSplit(ledger, i, Unpaid(paid + {id}));
    SumSplit(ledger, i, Unpaid(paid));
    SameSum(ledger[..i], Unpaid(paid + {id}), Unpaid(paid));
    SameSum(ledger[i + 1..], Unpaid(paid + {id}), Unpaid(paid));
  }

  lemma SameSum(xs: seq<LedgerEntry>, f: LedgerEntry -> int, g: LedgerEntry -> int)
    requires forall x :: x in xs ==> f(x) == g(x)
    ensures Sum(xs, f) == Sum(xs, g)
  {
    SumMonotone(xs, f, g);
    SumMonotone(xs, g, f);
  }

  lemma PaymentKeepsSound(b: Book, a: CorporateAction, now: int)
    requires Sound(b) && PayAction(b, a, now).Ok? && a.id !in b.paid
    ensures Sound(PayAction(b, a, now).value)
  {
    var i := PaymentPosts(b, a, now);
    var after := PayAction(b, a, now).value;
    hide PayAction;
    var e := after.ledger[|after.ledger| - 1];
    assert e == PaymentEntry(b.account, a, b.ledger[i].delta.dividends, now);
    PostKeepsBalanced(b, after, e);
    PostSums(b, after, e);
    assert SoundEntry(b.applied.Keys, b.ledger[i]);
    PaidOnce(b.ledger, b.paid, i, a.id);
    SumAppend(b.ledger, e, Unpaid(after.paid));
    hide BackedBook;
    hide Balanced;
    hide Sum;
  }

  // ---------- Settlement ----------

  predicate IsDue(calendar: Calendar, now: int, e: LedgerEntry) {
    var due := SettlementStart(calendar, e.effectiveAt);
    due.Ok? && due.value <= now
  }

  function DueAmount(calendar: Calendar, now: int): LedgerEntry -> int {
    (e: LedgerEntry) => if IsDue(calendar, now, e) then e.delta.unsettled else 0
  }

  predicate IsSettledOf(sales: seq<LedgerEntry>, calendar: Calendar, now: int, k: EventKey) {
    exists i :: 0 <= i < |sales| && sales[i].key == k && IsDue(calendar, now, sales[i])
  }

  /** A settlement adds to available what it takes from unsettled, and moves no shares. */
  predicate SettlementLike(e: LedgerEntry, now: int) {
    && e.kind == Settlement && e.key.SettlementKey? && e.quantityDelta == 0 && e.effectiveAt <= now
    && e.delta.available == -e.delta.unsettled >= 0 && e.delta.reserved == 0 && e.delta.dividends == 0
  }

  /** An account after some entries: each bucket moved by their sum, in the order they were recorded. */
  ghost predicate AppliesEntries(before: Account, entries: seq<LedgerEntry>, after: Account) {
    && OnlyBalances(before, after) && SoundBalances(after.balances)
    && FoldEntries(before.balances, entries) == Ok(after.balances)
    && (forall k: Bucket :: Amount(after.balances, k) == Amount(before.balances, k) + Sum(entries, In(k)))
  }

  lemma AppliesOneMore(before: Account, entries: seq<LedgerEntry>, mid: Account, e: LedgerEntry, after: Account)
    requires AppliesEntries(before, entries, mid) && OnlyBalances(mid, after)
    requires ApplyDelta(mid.balances, e.delta) == Ok(after.balances)
    ensures AppliesEntries(before, entries + [e], after)
  {
    assert (entries + [e])[..|entries|] == entries;
    forall k: Bucket
      ensures Amount(after.balances, k) == Amount(before.balances, k) + Sum(entries + [e], In(k))
    {
      assert Amount(mid.balances, k) == Amount(before.balances, k) + Sum(entries, In(k));
      SumAppend(entries, e, In(k));
    }
  }

  /** What settling a list of sales does to the cash. */
  ghost predicate SettlesCash(account: Account, sales: seq<LedgerEntry>, calendar: Calendar, now: int,
                              m: CashMutation) {
    && AppliesEntries(account, m.entries, m.account)
    && m.account.balances.reserved == account.balances.reserved
    && Sum(m.entries, In(UnsettledCash)) == -Sum(sales, DueAmount(calendar, now))
    && (forall i :: 0 <= i < |m.entries| ==> SettlementLike(m.entries[i], now))
  }

  /** Which sales it settles. */
  ghost predicate SettlesKeys(sales: seq<LedgerEntry>, calendar: Calendar, now: int, m: CashMutation) {
    && (forall i, j :: 0 <= i < j < |sales| ==> sales[i].key != sales[j].key)
    && (forall k :: k in SettledKeys(m.entries) <==> IsSettledOf(sales, calendar, now, k))
  }

  /** The step of settling one more sale, due or not. */
  predicate SettlesNext(account: Account, s: LedgerEntry, calendar: Calendar, now: int, m: CashMutation,
                        n: CashMutation) {
    if IsDue(calendar, now, s) then
      var e := SettlementEntry(account, s, SettlementStart(calendar, s.effectiveAt).value, now);
      && ApplyDelta(m.account.balances, e.delta).Ok?
      && n == CashMutation(m.account.(balances := ApplyDelta(m.account.balances, e.delta).value), m.entries + [e])
    else n == m
  }

  lemma SettledOneMore(sales: seq<LedgerEntry>, s: LedgerEntry, calendar: Calendar, now: int, k: EventKey)
    ensures IsSettledOf(sales + [s], calendar, now, k)
       <==> IsSettledOf(sales, calendar, now, k) || (s.key == k && IsDue(calendar, now, s))
  {
    hide IsDue;
    var all := sales + [s];
    if IsSettledOf(sales, calendar, now, k) {
      var i :| 0 <= i < |sales| && sales[i].key == k && IsDue(calendar, now, sales[i]);
      assert all[i] == sales[i];
    }
    if s.key == k && IsDue(calendar, now, s) {
      assert all[|sales|] == s;
    }
  }

  lemma SettlesKeysNext(account: Account, init: seq<LedgerEntry>, s: LedgerEntry, calendar: Calendar, now: int,
                        m: CashMutation, n: CashMutation)
    requires SettlesKeys(init, calendar, now, m) && SettlesNext(account, s, calendar, now, m, n)
    requires forall i :: 0 <= i < |init| ==> init[i].key != s.key
    ensures SettlesKeys(init + [s], calendar, now, n)
  {
    hide SettlementStart;
    forall k
      ensures k in SettledKeys(n.entries) <==> IsSettledOf(init + [s], calendar, now, k)
    {
      SettledOneMore(init, s, calendar, now, k);
      assert k in SettledKeys(m.entries) <==> IsSettledOf(init, calendar, now, k);
    }
  }

  lemma SettlesCashNext(account: Account, init: seq<LedgerEntry>, s: LedgerEntry, calendar: Calendar, now: int,
                        m: CashMutation, n: CashMutation)
    requires SettlesCash(account, init, calendar, now, m) && SettlesNext(account, s, calendar, now, m, n)
    requires Receivable(account, s)
    ensures SettlesCash(account, init + [s], calendar, now, n)
  {
    hide SettlementStart;
    hide AppliesEntries;
    SumAppend(init, s, DueAmount(calendar, now));
    if IsDue(calendar, now, s) {
      var e := SettlementEntry(account, s, SettlementStart(calendar, s.effectiveAt).value, now);
      AppliesOneMore(account, m.entries, m.account, e, n.account);
      SumAppend(m.entries, e, In(UnsettledCash));
    }
    hide Sum;
  }

  lemma {:induction false} SettlementIsExact(account: Account, sales: seq<LedgerEntry>, calendar: Calendar, now: int)
    requires SoundBalances(account.balances)
    requires SettleReceivables(account, sales, calendar, now).Ok?
    ensures SettlesCash(account, sales, calendar, now, SettleReceivables(account, sales, calendar, now).value)
    ensures SettlesKeys(sales, calendar, now, SettleReceivables(account, sales, calendar, now).value)
  {
    hide SettlesKeys;
    hide SettlesCash;
    if sales == [] {
      NothingSettled(account, calendar, now);
    } else {
      var init, s := sales[..|sales| - 1], sales[|sales| - 1];
      SettlementIsExact(account, init, calendar, now);
      var m := SettleReceivables(account, init, calendar, now).value;
      var n := SettleReceivables(account, sales, calendar, now).value;
      assert init + [s] == sales;
      assert forall i :: 0 <= i < |init| ==> sales[i].key == init[i].key;
      SettlesKeysNext(account, init, s, calendar, now, m, n);
      SettlesCashNext(account, init, s, calendar, now, m, n);
    }
  }

  lemma NothingSettled(account: Account, calendar: Calendar, now: int)
    requires SoundBalances(account.balances)
    ensures SettlesCash(account, [], calendar, now, CashMutation(account, []))
    ensures SettlesKeys([], calendar, now, CashMutation(account, []))
  {
  }

  function Where(keep: LedgerEntry -> bool, f: LedgerEntry -> int): LedgerEntry -> int {
    (e: LedgerEntry) => if keep(e) then f(e) else 0
  }

  lemma {:induction false} SumOfFiltered(xs: seq<LedgerEntry>, keep: LedgerEntry -> bool, f: LedgerEntry -> int)
    ensures Sum(Filter(xs, keep), f) == Sum(xs, Where(keep, f))
  {
    if xs != [] {
      var init, last := xs[..|xs| - 1], xs[|xs| - 1];
      SumOfFiltered(init, keep, f);
      if keep(last) {
        SumAppend(Filter(init, keep), last, f);
      } else {
        assert Filter(xs, keep) == Filter(init, keep);
      }
    }
  }

  function Sales(b: Book): seq<LedgerEntry> {
    Filter(b.ledger, AwaitingSettlement(b.settled))
  }

  function SettledBook(b: Book, m: CashMutation): Book {
    RecordCash(b, m).(settled := b.settled + SettledKeys(m.entries))
  }

  /** Of the sales awaiting settlement, exactly those that are due are marked. */
  lemma MarkedIffDue(b: Book, calendar: Calendar, now: int, m: CashMutation, e: LedgerEntry)
    requires SettlesKeys(Sales(b), calendar, now, m)
    requires e in b.ledger && AwaitingSettlement(b.settled)(e)
    ensures e.key in SettledKeys(m.entries) <==> IsDue(calendar, now, e)
  {
    hide IsDue;
    var sales := Sales(b);
    FilterKeeps(b.ledger, AwaitingSettlement(b.settled), e);
    var i :| 0 <= i < |sales| && sales[i] == e;
    if e.key in SettledKeys(m.entries) {
      var j :| 0 <= j < |sales| && sales[j].key == e.key && IsDue(calendar, now, sales[j]);
      assert i == j;
    }
  }

  /** Marking the sales just settled takes exactly their proceeds out of what is outstanding. */
  lemma OutstandingAfterSettlement(b: Book, calendar: Calendar, now: int, m: CashMutation)
    requires SettlesKeys(Sales(b), calendar, now, m)
    ensures Sum(b.ledger, Outstanding(b.settled + SettledKeys(m.entries)))
         == Sum(b.ledger, Outstanding(b.settled)) - Sum(Sales(b), DueAmount(calendar, now))
  {
    hide Sum;
    hide IsDue;
    hide SettlesKeys;
    var awaiting := AwaitingSettlement(b.settled);
    var marked := b.settled + SettledKeys(m.entries);
    SumOfFiltered(b.ledger, awaiting, DueAmount(calendar, now));
    forall e | e in b.ledger
      ensures Outstanding(marked)(e) == Outstanding(b.settled)(e) - Where(awaiting, DueAmount(calendar, now))(e)
    {
      if awaiting(e) {
        MarkedIffDue(b, calendar, now, m, e);
      }
    }
    SumOfDifference(b.ledger, Outstanding(marked), Outstanding(b.settled), Where(awaiting, DueAmount(calendar, now)));
  }

  /** Settlement entries count in no measure of sales, dividends, income or shares. */
  lemma SettlementSums(ledger: seq<LedgerEntry>, entries: seq<LedgerEntry>, now: int, settled: set<EventKey>,
                       paid: set<int>)
    requires forall i :: 0 <= i < |entries| ==> SettlementLike(entries[i], now)
    ensures Sum(ledger + entries, Outstanding(settled)) == Sum(ledger, Outstanding(settled))
    ensures Sum(ledger + entries, Unpaid(paid)) == Sum(ledger, Unpaid(paid))
    ensures Sum(ledger + entries, ActionIncome()) == Sum(ledger, ActionIncome())
    ensures forall id :: Sum(ledger + entries, SharesIn(id)) == Sum(ledger, SharesIn(id))
    ensures Sum(entries, In(DividendCash)) == 0 && Sum(entries, In(ReservedCash)) == 0
  {
    SumConcat(ledger, entries, Outstanding(settled));
    SumIsZero(entries, Outstanding(settled));
    SumConcat(ledger, entries, Unpaid(paid));
    SumIsZero(entries, Unpaid(paid));
    SumConcat(ledger, entries, ActionIncome());
    SumIsZero(entries, ActionIncome());
    SumIsZero(entries, In(DividendCash));
    SumIsZero(entries, In(ReservedCash));
    forall id
      ensures Sum(ledger + entries, SharesIn(id)) == Sum(ledger, SharesIn(id))
    {
      SumConcat(ledger, entries, SharesIn(id));
      SumIsZero(entries, SharesIn(id));
    }
  }

  lemma EntriesKeepCash(account: Account, sales: seq<LedgerEntry>, calendar: Calendar, now: int, m: CashMutation)
    requires SettlesCash(account, sales, calendar, now, m)
    ensures CashOf(m.account.balances) == CashOf(account.balances)
    ensures m.account.balances.unsettled == account.balances.unsettled - Sum(sales, DueAmount(calendar, now))
    ensures m.account.balances.dividends == account.balances.dividends
  {
    SettlementSums([], m.entries, now, {}, {});
    forall e | e in m.entries
      ensures In(AvailableCash)(e) == In(ReservedCash)(e) - In(UnsettledCash)(e)
    {
    }
    SumOfDifference(m.entries, In(AvailableCash), In(ReservedCash), In(UnsettledCash));
    hide Sum;
    assert Amount(m.account.balances, AvailableCash)
           == Amount(account.balances, AvailableCash) + Sum(m.entries, In(AvailableCash));
    assert Amount(m.account.balances, UnsettledCash)
           == Amount(account.balances, UnsettledCash) + Sum(m.entries, In(UnsettledCash));
    assert Amount(m.account.balances, DividendCash)
           == Amount(account.balances, DividendCash) + Sum(m.entries, In(DividendCash));
  }

  lemma SettledOrdersAreClosed(b: Book, calendar: Calendar, now: int, m: CashMutation)
    requires Keyed(b) && OpenAreUnfilled(b) && SettlesKeys(Sales(b), calendar, now, m)
    ensures forall n :: 0 <= n < |b.orders| && !b.orders[n].Terminal() ==>
      FillKey(b.orders[n].id) !in b.settled + SettledKeys(m.entries)
  {
    hide IsDue;
    var sales := Sales(b);
    forall n | 0 <= n < |b.orders| && !b.orders[n].Terminal()
      ensures FillKey(b.orders[n].id) !in SettledKeys(m.entries)
    {
      if FillKey(b.orders[n].id) in SettledKeys(m.entries) {
        var i :| 0 <= i < |sales| && sales[i].key == FillKey(b.orders[n].id) && IsDue(calendar, now, sales[i]);
        FilterKeeps(b.ledger, AwaitingSettlement(b.settled), sales[i]);
      }
    }
  }

  lemma {:induction false} FoldConcat(start: Balances, xs: seq<LedgerEntry>, ys: seq<LedgerEntry>)
    requires FoldEntries(start, xs).Ok?
    ensures FoldEntries(start, xs + ys) == FoldEntries(FoldEntries(start, xs).value, ys)
  {
    if ys == [] {
      assert xs + ys == xs;
    } else {
      FoldConcat(start, xs, ys[..|ys| - 1]);
      assert (xs + ys)[..|xs + ys| - 1] == xs + ys[..|ys| - 1];
    }
  }

  lemma SettlementKeepsBalanced(b: Book, sales: seq<LedgerEntry>, calendar: Calendar, now: int, m: CashMutation)
    requires Balanced(b) && SettlesCash(b.account, sales, calendar, now, m)
    ensures Balanced(SettledBook(b, m))
  {
    hide SettledKeys;
    FoldConcat(StartBalances(b.account.initialCash), b.ledger, m.entries);
    SettlementSums(b.ledger, m.entries, now, {}, {});
    var after := SettledBook(b, m);
    forall k: Bucket
      ensures Amount(after.account.balances, k)
           == Sum(after.ledger, In(k)) + if k == AvailableCash then after.account.initialCash else 0
    {
      assert Amount(b.account.balances, k)
             == Sum(b.ledger, In(k)) + if k == AvailableCash then b.account.initialCash else 0;
      assert Amount(m.account.balances, k) == Amount(b.account.balances, k) + Sum(m.entries, In(k));
      SumConcat(b.ledger, m.entries, In(k));
    }
  }

  lemma SettlementKeepsObligations(b: Book, calendar: Calendar, now: int, m: CashMutation)
    requires ObligationsMatch(b) && Conserved(b)
    requires SettlesCash(b.account, Sales(b), calendar, now, m) && SettlesKeys(Sales(b), calendar, now, m)
    ensures ObligationsMatch(SettledBook(b, m)) && Conserved(SettledBook(b, m))
  {
    OutstandingAfterSettlement(b, calendar, now, m);
    EntriesKeepCash(b.account, Sales(b), calendar, now, m);
    SettlementSums(b.ledger, m.entries, now, b.settled + SettledKeys(m.entries), b.paid);
    hide Sum;
    hide SettledKeys;
    hide SettlesKeys;
  }

  lemma SettlementKeepsKeys(b: Book, sales: seq<LedgerEntry>, calendar: Calendar, now: int, m: CashMutation)
    requires Keyed(b) && OpenAreUnfilled(b) && sales == Sales(b)
    requires SettlesCash(b.account, sales, calendar, now, m) && SettlesKeys(sales, calendar, now, m)
    ensures Keyed(SettledBook(b, m)) && OpenAreUnfilled(SettledBook(b, m))
  {
    SettledOrdersAreClosed(b, calendar, now, m);
    hide SettledKeys;
    hide SettlesKeys;
    hide Sum;
    assert forall i :: 0 <= i < |m.entries| ==> m.entries[i].key.SettlementKey? && m.entries[i].kind == Settlement;
    hide SettlesCash;
    forall i | 0 <= i < |b.ledger| + |m.entries|
      ensures SoundEntry(b.applied.Keys, (b.ledger + m.entries)[i])
    {
      if i < |b.ledger| {
        assert SoundEntry(b.applied.Keys, b.ledger[i]);
      }
    }
  }

  lemma SettlementIsSettledBook(b: Book, calendar: Calendar, now: int)
    requires SoundBalances(b.account.balances) && Settle(b, calendar, now).Ok?
    ensures var r := SettleReceivables(b.account, Sales(b), calendar, now);
      && r.Ok? && Settle(b, calendar, now).value == SettledBook(b, r.value)
      && SettlesCash(b.account, Sales(b), calendar, now, r.value) && SettlesKeys(Sales(b), calendar, now, r.value)
  {
    SettlementIsExact(b.account, Sales(b), calendar, now);
    hide SettlesCash;
    hide SettlesKeys;
  }

  lemma SettledBookIsBacked(b: Book, sales: seq<LedgerEntry>, calendar: Calendar, now: int, m: CashMutation)
    requires BackedBook(b) && SettlesCash(b.account, sales, calendar, now, m)
    ensures BackedBook(SettledBook(b, m))
  {
    hide Sum;
    hide FoldEntries;
    hide SettledKeys;
  }

  lemma SettleKeepsSound(b: Book, calendar: Calendar, now: int)
    requires Sound(b) && OpenAreUnfilled(b) && Settle(b, calendar, now).Ok?
    ensures Sound(Settle(b, calendar, now).value) && OpenAreUnfilled(Settle(b, calendar, now).value)
  {
    hide Settle;
    hide SettlesCash;
    hide SettlesKeys;
    hide SettledBook;
    hide Balanced;
    hide ObligationsMatch;
    hide Conserved;
    hide Keyed;
    hide OpenAreUnfilled;
    SettlementIsSettledBook(b, calendar, now);
    var m := SettleReceivables(b.account, Sales(b), calendar, now).value;
    SettledBookIsBacked(b, Sales(b), calendar, now, m);
    SettlementKeepsBalanced(b, Sales(b), calendar, now, m);
    SettlementKeepsObligations(b, calendar, now, m);
    SettlementKeepsKeys(b, Sales(b), calendar, now, m);
  }
}
