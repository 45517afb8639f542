/** What the books of a successful replay mean, after every session. */
module Guarantees {
  import opened Domain
  import opened Calendars
  import opened Sums
  import opened Holdings
  import opened Reservations
  import opened Replay
  import opened BookEvents
  import opened BookMeaning
  import opened Causality
  import opened Planning
  import opened Running

  lemma ReachedIsSound(input: ReplayInput, days: seq<Session>, n: nat)
    requires n < |days| && WellFormedDays(days) && WellFormedSource(input.source)
    requires 0 < input.initialCash <= MAX_INITIAL_CASH
    requires RunSessions(input, days, n).Ok?
    ensures Sound(RunSessions(input, days, n).value) && WithinCapacity(RunSessions(input, days, n).value)
    ensures RunSessions(input, days, n).value.account.initialCash == input.initialCash
  {
    hide RunSessions;
    hide Sound;
    hide WithinCapacity;
    hide Numbered;
    RunKeeps(input, days, n);
  }

  /** Each bucket is the obligations it stands for: the reserve is what open buys hold, the reserved shares of a name
      are what its open sells hold and are never more than it has, unsettled cash is the proceeds of the sales not yet
      settled, dividends are the accruals not yet paid; and a row has a basis only while it has shares. */
  lemma BucketsMean(input: ReplayInput, days: seq<Session>, n: nat)
    requires n < |days| && WellFormedDays(days) && WellFormedSource(input.source)
    requires 0 < input.initialCash <= MAX_INITIAL_CASH
    requires RunSessions(input, days, n).Ok?
    ensures var b := RunSessions(input, days, n).value;
      && b.account.balances.available >= 0
      && b.account.balances.reserved == Sum(b.orders, CashHeld())
      && b.account.balances.unsettled == Sum(b.ledger, Outstanding(b.settled))
      && b.account.balances.dividends == Sum(b.ledger, Unpaid(b.paid))
      && (forall id :: 0 <= Reserved(b.positions, id) == Sum(b.orders, SharesHeld(id)) <= Held(b.positions, id))
      && (forall k :: 0 <= k < |b.positions| ==> SoundRow(b.positions[k]))
  {
    ReachedIsSound(input, days, n);
    hide RunSessions;
    var b := RunSessions(input, days, n).value;
    BackedBuckets(b);
    SoundParts(b);
    hide Sound;
    hide Balanced;
    hide Conserved;
    hide Keyed;
    hide Sum;
  }

  lemma BackedBuckets(b: Book)
    requires Sound(b)
    ensures b.account.balances.available >= 0 && b.account.balances.reserved == Sum(b.orders, CashHeld())
    ensures forall id :: 0 <= Reserved(b.positions, id) == Sum(b.orders, SharesHeld(id)) <= Held(b.positions, id)
    ensures forall k :: 0 <= k < |b.positions| ==> SoundRow(b.positions[k])
  {
    hide Balanced;
    hide ObligationsMatch;
    hide Conserved;
    hide Keyed;
    forall id
      ensures 0 <= Reserved(b.positions, id) <= Held(b.positions, id)
    {
      SumNonNegative(b.positions, ReservedSharesOf(id));
      ReservedWithinHeld(b.positions, id);
    }
    hide Sum;
  }

  /** Total cash is the initial cash, less gross and fee of every buy, plus gross less fee of every sell, plus every
      dividend accrued and every payment in lieu of a fraction; each balance and holding is the sum of its entries. */
  lemma CashIsConserved(input: ReplayInput, days: seq<Session>, n: nat)
    requires n < |days| && WellFormedDays(days) && WellFormedSource(input.source)
    requires 0 < input.initialCash <= MAX_INITIAL_CASH
    requires RunSessions(input, days, n).Ok?
    ensures var b := RunSessions(input, days, n).value;
      && CashOf(b.account.balances) == input.initialCash + Sum(b.fills, NetFlow()) + Sum(b.ledger, ActionIncome())
      && (forall k: Bucket :: Amount(b.account.balances, k)
            == Sum(b.ledger, In(k)) + if k == AvailableCash then input.initialCash else 0)
      && (forall id :: Held(b.positions, id) == Sum(b.ledger, SharesIn(id)))
  {
    ReachedIsSound(input, days, n);
    hide RunSessions;
    SoundParts(RunSessions(input, days, n).value);
    hide Sound;
    hide BackedBook;
    hide ObligationsMatch;
    hide Keyed;
    hide Sum;
    hide FoldEntries;
  }

  /** Over all executions of a run, late ones included, an opening never fills more shares of a name than the capacity
      of any of the orders for it. */
  lemma CapacityIsKept(input: ReplayInput, days: seq<Session>, n: nat, o: Order)
    requires n < |days| && WellFormedDays(days) && WellFormedSource(input.source)
    requires 0 < input.initialCash <= MAX_INITIAL_CASH
    requires RunSessions(input, days, n).Ok? && o in RunSessions(input, days, n).value.orders
    ensures Sum(RunSessions(input, days, n).value.fills, SharesFilled(o.targetOpenAt, o.instrument)) <= o.capacity
  {
    ReachedIsSound(input, days, n);
    hide RunSessions;
    hide Sound;
    hide Sum;
    var b := RunSessions(input, days, n).value;
    var k :| 0 <= k < |b.orders| && b.orders[k] == o;
    assert CapacityKept(b, b.orders[k]);
  }
}
