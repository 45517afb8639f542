// What the unsettled cash and the dividends of a live account stand for, and the volume its fills may take, after any
// sequence of commands.
module LiveBuckets {
  import opened Money
  import opened Domain
  import opened Sums
  import opened Reservations
  import opened BookEvents
  import opened BookMeaning
  import opened Live
  import opened LiveReserves
  import opened LiveRuns
  import opened LiveHistory

  // ---------- Claims ----------

  /** What a claim still stands for: all of it until the entry that closes it is recorded. */
  function Due(ledger: seq<LedgerEntry>, k: Bucket): LedgerEntry -> int {
    (e: LedgerEntry) => if Claims(k, e) && !HasKey(ledger, ClosedBy(k, e)) then Amount(e.delta, k) else 0
  }

  /** An entry that closes a claim comes after it. */
  predicate Answers(ledger: seq<LedgerEntry>, k: Bucket, key: EventKey) {
    exists j :: 0 <= j < |ledger| && Claims(k, ledger[j]) && ClosedBy(k, ledger[j]) == key
  }

  ghost predicate Matched(ledger: seq<LedgerEntry>, k: Bucket) {
    && (forall i, j :: 0 <= i < j < |ledger| ==> ledger[i].key != ledger[j].key)
    && (forall i :: 0 <= i < |ledger| && Closing(k, ledger[i].key) ==> Answers(ledger, k, ledger[i].key))
    && Sum(ledger, In(k)) == Sum(ledger, Due(ledger, k))
  }

  predicate ClaimBucket(k: Bucket) {
    k == UnsettledCash || k == DividendCash
  }

  lemma HasKeyAppend(ledger: seq<LedgerEntry>, e: LedgerEntry, key: EventKey)
    ensures HasKey(ledger + [e], key) <==> HasKey(ledger, key) || e.key == key
  {
    var after := ledger + [e];
    if HasKey(ledger, key) {
      var i :| 0 <= i < |ledger| && ledger[i].key == key;
      assert after[i].key == key;
    }
    if e.key == key {
      assert after[|ledger|].key == key;
    }
  }

  /** An entry that closes nothing leaves what the earlier ones stand for. */
  lemma OpenEntryKeeps(ledger: seq<LedgerEntry>, k: Bucket, e: LedgerEntry)
    requires ClaimBucket(k) && Matched(ledger, k) && ProperIn(ledger, k, e) && !HasKey(ledger, e.key)
    requires !Closing(k, e.key)
    ensures Sum(ledger + [e], In(k)) == Sum(ledger + [e], Due(ledger + [e], k))
  {
    var after := ledger + [e];
    SumAppend(ledger, e, In(k));
    SumAppend(ledger, e, Due(after, k));
    forall x | x in ledger
      ensures Due(after, k)(x) == Due(ledger, k)(x)
    {
      HasKeyAppend(ledger, e, ClosedBy(k, x));
    }
    SameSums(ledger, Due(after, k), Due(ledger, k));
    if Claims(k, e) {
      HasKeyAppend(ledger, e, ClosedBy(k, e));
      AnsweredIsThere(ledger, k, e);
    }
  }

  /** A claim that has been closed has been recorded. */
  lemma AnsweredIsThere(ledger: seq<LedgerEntry>, k: Bucket, e: LedgerEntry)
    requires ClaimBucket(k) && Matched(ledger, k) && Claims(k, e)
    ensures HasKey(ledger, ClosedBy(k, e)) ==> HasKey(ledger, e.key)
  {
    if HasKey(ledger, ClosedBy(k, e)) {
      var i :| 0 <= i < |ledger| && ledger[i].key == ClosedBy(k, e);
      assert Answers(ledger, k, ledger[i].key);
      var j :| 0 <= j < |ledger| && Claims(k, ledger[j]) && ClosedBy(k, ledger[j]) == ledger[i].key;
      assert ledger[j].key == e.key;
    }
  }

  lemma SameSums(ledger: seq<LedgerEntry>, f: LedgerEntry -> int, g: LedgerEntry -> int)
    requires forall x :: x in ledger ==> f(x) == g(x)
    ensures Sum(ledger, f) == Sum(ledger, g)
  {
    SumMonotone(ledger, f, g);
    SumMonotone(ledger, g, f);
  }

  /** An entry that closes a claim takes it, and no other, out of what is due. */
  lemma ClosingEntryKeeps(ledger: seq<LedgerEntry>, k: Bucket, e: LedgerEntry, j: nat)
    requires ClaimBucket(k) && Matched(ledger, k) && !HasKey(ledger, e.key) && Closing(k, e.key) && !Claims(k, e)
    requires j < |ledger| && Claims(k, ledger[j]) && ClosedBy(k, ledger[j]) == e.key
    requires Amount(e.delta, k) == -Amount(ledger[j].delta, k)
    ensures Sum(ledger + [e], In(k)) == Sum(ledger + [e], Due(ledger + [e], k))
  {
    var after := ledger + [e];
    SumAppend(ledger, e, In(k));
    SumAppend(ledger, e, Due(after, k));
    SumSplit(ledger, j, Due(after, k));
    SumSplit(ledger, j, Due(ledger, k));
    forall x | x in ledger[..j] || x in ledger[j + 1..]
      ensures Due(after, k)(x) == Due(ledger, k)(x)
    {
      var i :| 0 <= i < |ledger| && i != j && ledger[i] == x;
      assert ledger[i].key != ledger[j].key;
      HasKeyAppend(ledger, e, ClosedBy(k, x));
    }
    SameSums(ledger[..j], Due(after, k), Due(ledger, k));
    SameSums(ledger[j + 1..], Due(after, k), Due(ledger, k));
    HasKeyAppend(ledger, e, e.key);
  }

  lemma EntryKeepsMatched(ledger: seq<LedgerEntry>, k: Bucket, e: LedgerEntry)
    requires ClaimBucket(k) && Matched(ledger, k) && ProperIn(ledger, k, e) && !HasKey(ledger, e.key)
    ensures Matched(ledger + [e], k)
  {
    var after := ledger + [e];
    if Closing(k, e.key) {
      var j :| 0 <= j < |ledger| && Claims(k, ledger[j]) && ClosedBy(k, ledger[j]) == e.key
               && Amount(e.delta, k) == -Amount(ledger[j].delta, k);
      ClosingEntryKeeps(ledger, k, e, j);
      assert Claims(k, after[j]);
    } else {
      OpenEntryKeeps(ledger, k, e);
    }
    hide Sum;
    forall i | 0 <= i < |after| && Closing(k, after[i].key)
      ensures Answers(after, k, after[i].key)
    {
      if i < |ledger| {
        assert Answers(ledger, k, ledger[i].key);
        var j :| 0 <= j < |ledger| && Claims(k, ledger[j]) && ClosedBy(k, ledger[j]) == ledger[i].key;
        assert Claims(k, after[j]);
      }
    }
  }

  lemma {:induction false} GrowingKeepsMatched(ledger: seq<LedgerEntry>, after: seq<LedgerEntry>, k: Bucket)
    requires ClaimBucket(k) && Matched(ledger, k) && Grows(ledger, after)
    ensures Matched(after, k)
    decreases |after|
  {
    hide Matched;
    if |after| == |ledger| {
      assert after == ledger;
    } else {
      var init, e := after[..|after| - 1], after[|after| - 1];
      forall i | |ledger| <= i < |init|
        ensures !HasKey(init[..i], init[i].key) && Proper(init[..i], init[i])
      {
        assert init[..i] == after[..i];
      }
      GrowingKeepsMatched(ledger, init, k);
      EntryKeepsMatched(init, k, e);
      assert init + [e] == after;
    }
  }

  /** After any sequence of commands the unsettled cash is the proceeds of the sales not yet settled, and the dividends
      are the accruals not yet paid. */
  lemma LiveBucketsMean(account: int, initialCash: int, createdAt: int, commands: seq<Command>)
    requires 0 < initialCash <= MAX_INT64
    ensures var s := AfterAll(OpenDesk(account, initialCash, createdAt), commands);
      && s.account.balances.unsettled == Sum(s.ledger, Due(s.ledger, UnsettledCash))
      && s.account.balances.dividends == Sum(s.ledger, Due(s.ledger, DividendCash))
  {
    var start := OpenDesk(account, initialCash, createdAt);
    var s := AfterAll(start, commands);
    assert commands[..0] == [] && AfterAll(start, commands[..0]) == start;
    assert Matched(start.ledger, UnsettledCash) && Matched(start.ledger, DividendCash);
    hide AfterAll;
    hide Grows;
    hide FillsGrow;
    hide Matched;
    hide Kept;
    hide Sum;
    HistoryIsKept(start, commands, 0);
    OpenDeskIsKept(account, initialCash, createdAt);
    RunsKeepReserves(start, commands);
    GrowingKeepsMatched(start.ledger, s.ledger, UnsettledCash);
    GrowingKeepsMatched(start.ledger, s.ledger, DividendCash);
    MatchedMeans(s.ledger, UnsettledCash);
    MatchedMeans(s.ledger, DividendCash);
    KeptSums(s);
  }

  lemma MatchedMeans(ledger: seq<LedgerEntry>, k: Bucket)
    requires Matched(ledger, k)
    ensures Sum(ledger, In(k)) == Sum(ledger, Due(ledger, k))
  {
  }

  lemma KeptSums(s: Store)
    requires Kept(s)
    ensures s.account.balances.unsettled == Sum(s.ledger, In(UnsettledCash))
    ensures s.account.balances.dividends == Sum(s.ledger, In(DividendCash))
  {
    assert Amount(s.account.balances, UnsettledCash)
           == Start(s.account.initialCash, UnsettledCash) + Sum(s.ledger, In(UnsettledCash));
    assert Amount(s.account.balances, DividendCash)
           == Start(s.account.initialCash, DividendCash) + Sum(s.ledger, In(DividendCash));
    hide Backed;
    hide Lives;
  }

  // ---------- Cash ----------

  function TotalOf(): LedgerEntry -> int {
    (e: LedgerEntry) => CashOf(e.delta)
  }

  lemma {:induction false} TotalOfBuckets(ledger: seq<LedgerEntry>)
    ensures Sum(ledger, TotalOf()) == Sum(ledger, In(AvailableCash)) + Sum(ledger, In(ReservedCash))
                                      + Sum(ledger, In(UnsettledCash)) + Sum(ledger, In(DividendCash))
  {
    if ledger != [] {
      TotalOfBuckets(ledger[..|ledger| - 1]);
    }
  }

  /** Of a ledger grown from nothing, all cash came with fills and actions. */
  lemma {:induction false} TotalOfProper(ledger: seq<LedgerEntry>)
    requires Grows([], ledger)
    ensures Sum(ledger, TotalOf()) == Sum(ledger, FillCash()) + Sum(ledger, ActionIncome())
  {
    if ledger != [] {
      var init, n := ledger[..|ledger| - 1], |ledger| - 1;
      assert Proper(ledger[..n], ledger[n]);
      hide HasKey;
      hide ProperIn;
      forall i | 0 <= i < |init|
        ensures !HasKey(init[..i], init[i].key) && Proper(init[..i], init[i])
      {
        assert init[..i] == ledger[..i];
      }
      TotalOfProper(init);
    }
  }

  /** After any sequence of commands total cash is the initial cash, less gross and fee of every buy, plus gross less
      fee of every sell, plus every dividend accrued and every payment in lieu of a fraction. */
  lemma LiveCashIsConserved(account: int, initialCash: int, createdAt: int, commands: seq<Command>)
    requires 0 < initialCash <= MAX_INT64
    ensures var s := AfterAll(OpenDesk(account, initialCash, createdAt), commands);
      && CashOf(s.account.balances) == initialCash + Sum(s.fills, NetFlow()) + Sum(s.ledger, ActionIncome())
      && s.account.initialCash == initialCash
  {
    var start := OpenDesk(account, initialCash, createdAt);
    var s := AfterAll(start, commands);
    assert commands[..0] == [] && AfterAll(start, commands[..0]) == start;
    hide AfterAll;
    hide Grows;
    hide Kept;
    hide FillsGrow;
    HistoryIsKept(start, commands, 0);
    OpenDeskIsKept(account, initialCash, createdAt);
    RunsKeepReserves(start, commands);
    TotalOfProper(s.ledger);
    TotalOfBuckets(s.ledger);
    BucketSums(s);
    assert Sum(start.ledger, FillCash()) == 0 && Sum(start.fills, NetFlow()) == 0;
    hide Sum;
  }

  lemma BucketSums(s: Store)
    requires Kept(s)
    ensures CashOf(s.account.balances)
         == s.account.initialCash + Sum(s.ledger, In(AvailableCash)) + Sum(s.ledger, In(ReservedCash))
            + Sum(s.ledger, In(UnsettledCash)) + Sum(s.ledger, In(DividendCash))
  {
    hide Backed;
    hide Lives;
    hide Sum;
    var balances, initial := s.account.balances, s.account.initialCash;
    assert Amount(balances, AvailableCash) == Start(initial, AvailableCash) + Sum(s.ledger, In(AvailableCash));
    assert Amount(balances, ReservedCash) == Start(initial, ReservedCash) + Sum(s.ledger, In(ReservedCash));
    assert Amount(balances, UnsettledCash) == Start(initial, UnsettledCash) + Sum(s.ledger, In(UnsettledCash));
    assert Amount(balances, DividendCash) == Start(initial, DividendCash) + Sum(s.ledger, In(DividendCash));
  }
}
