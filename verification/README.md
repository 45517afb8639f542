# Paper-trading engine: verified model

This project models the paper-trading engine of the investment module: fixed-point money, the four-bucket cash ledger
(available, reserved, unsettled, dividends), order reservation, risk sizing, next-open matching, fills, settlement,
splits and dividends, portfolio rebalancing, the backtest that drives them over a calendar, and the live commands that
run the same operations as transactions over an account's stores. `dafny verify dfyconfig.toml` checks the whole project.

## How it is built

- **Specification.** Each operation is a function from values to a `Result`: the amounts are integers with the engine's
  64-bit range checks and its rounding written out, the errors are the engine's own (`Outcomes`). A replay is the fold
  `Replay.RunSessions` over the days of the calendar; a live account is the fold `Live.AfterAll` over commands, in the
  order in which their transactions take the account lock. A command commits, declines (what it stored before the
  refusal stays, as the engine commits the refusal itself), or fails and leaves no trace.
- **Engine form.** Code that loops or updates fields is also written that way and proved equal to its specification:
  `MarketLoops`, `LedgerLoops`, `RiskLoops`, `RebalanceLoops`, the class `ReplayBooks.ReplayBook` with the session loop
  `ReplayBooks.Replay`, and the class `LiveDesks.LiveDesk`. What is proved of the functions therefore holds of them.
- **Layers.** `Money`, `Sizing`, `Decimals`, `Percentiles` are arithmetic; `Lists`, `Sums` are lists and sums;
  `Domain`, `Calendars`, `Versions`, `Snapshots` are data; `Ledger`, `Risk`, `Rebalance`, `Execution` are the
  operations; `Holdings`, `Reservations`, `CostBasis`, `Valuation` prove what one operation does, and
  `RebalanceSteps`, `RebalanceBudgets`, `RebalanceCaps`, `RebalanceRounding`, `TopUps`, `RepeatedSells` what a plan
  does. `Replay` is the backtest; `BookEvents`, `BookMeaning`, `Causality`, `Reconciling`, `Planning`, `Executing`,
  `Running`, `Guarantees`, `Refold`, `Restating`, `Admission`, `NoLookAhead`, `Volumes` prove what every run keeps;
  `SharedNumbers`, `DistinctSales`, `SettlingRuns` on shared order numbers and `LateBars`, `LateFills`, `LateRuns`,
  `WaitingSells`, `SellRuns` on late fills prove when two further properties hold, and `StoppedData`, `StoppedEntry`,
  `StoppedPlan`, `StoppedReplay`, `LateReplay` are replays in which they do not. `Live` is the live account;
  `LiveReserves`, `LiveRuns`, `LiveOpenings`, `LiveHistory`, `LiveBuckets`, `LiveCapacity`, `LivePromises` prove what
  its commands keep.

## Main results

1. **Causal refold** (`Restating.RefoldAtEveryCutoff`). Entries are recorded out of economic order: a late sale or a
   settlement carries an earlier instant. Still, after every session of every replay that succeeds, folding only the
   entries effective by any cutoff never drives a bucket or a holding below zero, not even on the way.
2. **The refold is the book** (`Restating.RefoldIsTheBook`, `Admission.CurveEndsAtClosingNav`). Folded to the end, the
   ledger gives the incremental balances and holdings, and the last point of the restated curve is the value the run
   computed.
3. **No look-ahead** (`NoLookAhead.NothingLaterMatters`). Inputs that agree on what was published by an instant reach
   the same book, or the same error, after every session decided by then.
4. **Buckets mean obligations, cash is conserved** (`Guarantees.BucketsMean`, `Guarantees.CashIsConserved`) after every
   session of every replay.
5. **Plans respect limits exactly when rounding lets them** (`RebalanceRounding.PlanMeetsCaps`,
   `TopUps.ExactlyProneHoldingsExceed`) **and can be carried out** (`RebalanceBudgets.PlanIsInBudget`,
   `Planning.RebalancePlansAreReservable`, `Execution.MatchThenFill`).
6. **Volume** (`Volumes.FillsWithinVolume`). All shares filled for one opening and name, late ones included, are within
   one part in two thousand of the volume of twenty sessions known when an order was decided.
7. **Shared order numbers** (`SettlingRuns.SalesOfRun`, `StoppedReplay.TwoSellsStopTheReplay`). The sales of a run can be
   settled exactly when no two sells were filled under one number; they can be as long as no plan sells a name twice, and
   an admitted replay stops for good because one does.
8. **Fills in step with actions** (`LateRuns.OutOfStepIsExposed`, `LateReplay.ExactlyLateBarsFallOutOfStep`). In every
   admitted replay over a spaced calendar no fill is recorded behind an action of its name that took effect after it,
   unless for some session one name has a bar published after the decision and an action that takes effect after the
   opening and by the next one. Over every publication instant of a bar and every instant of a split, an admitted replay
   falls out of step if and only if both lie there.
9. **Sells and splits** (`SellRuns.SellsFollowSplits`, `SellRuns.WaitingSellStopsReplay`). Whatever the bars do, no sell
   of a replay that succeeds is filled behind a split of its name: a split that meets a waiting sell stops the replay.
10. **Live accounts** (`LiveRuns.ReservationsCloseOnce`, `LiveBuckets.LiveBucketsMean`, `LiveBuckets.LiveCashIsConserved`,
    `LiveCapacity.LiveFillsWithinVolume`, `LiveHistory.HistoryIsKept`). Under every sequence of commands the reserve is
    what stored open orders hold, each order is reserved once and closed exactly once, unsettled cash and dividends are
    the claims still open, total cash is conserved, nothing stored is rewritten, and, in the order of time, all that is
    filled for a date and a name is within the capacity of each order and the volume it was computed from. The class
    `LiveDesks.LiveDesk` promises of each command what it keeps to a caller who sees only its fields.
11. **Sizing, cost basis, percentiles, decimals** are exact where the engine promises it, with the exact slack where it
    rounds.

## Assumptions

- `Running.WellFormedDays`: each session opens after the decision time (close plus half an hour) of the previous one, on
  a later date. `Admission.AdmittedDays` derives it for every admitted replay from `Admission.Spaced`, a condition on
  the calendar's own sessions, in whatever order they are listed.
- `Running.WellFormedSource`: settlement begins no earlier than midnight of a later date, and the versions of each
  corporate action say the same, or were ingested in the order in which they were published, so that a later one
  supersedes an earlier one. Both are conditions on the data, and only the theorems that need them ask for them.
- `LiveCapacity.InOrder`, `LiveCapacity.OnePerDate`: a command is not older than the fills recorded before it, and no two
  openings of the calendars in use fall on one date. Only the results on capacity and volume ask for them.
- Scoring (`evaluate`) is any function of the selected snapshot. The peak of recorded values, new order numbers and the
  clock are parameters of live commands.

## What the proofs found

- **Replay order numbers can be shared, and that stops a replay.** A replay numbers orders by date, name and side, and a
  plan can sell one name twice in a session: exactly when two of its exit and its single-name, industry and stock cuts
  apply to it (`RepeatedSells.SoldTwiceIff`), for instance an exit cut short by the turnover limit with the rest still
  over a limit (`RepeatedSells.ExitSize`, `RepeatedSells.SingleCutIff`). Once two sells of one number are filled every
  later reconciliation refuses (`DistinctSales.FilledTwiceIsStuck`), and sharing is the only obstacle
  (`SharedNumbers.SettlesIffDistinct`). A replay in which no plan sells a name twice is never stopped so
  (`SettlingRuns.SalesOfRun`); `StoppedReplay.TwoSellsStopTheReplay` is an admitted one that is. All results about
  replays are proved with shared numbers allowed.
- **A cent over the limit.** The value of a topped-up holding exceeds the sum of its rounded parts by one cent exactly
  when their rests carry (`Money.GrossOfSumCarries`). So after the buys of a plan a single name is never over its limit,
  and an industry or the stocks are over theirs, by that cent, if and only if a buy that carries takes all the room there
  was (`RebalanceRounding.PlanMeetsCaps`). A caller can rule it out beforehand: no plan ends over a limit when every held
  candidate is worth whole cents or is rounded up (`RebalanceRounding.SteadyPlansAreExact`), and for every other holding
  there is an account whose plan does (`TopUps.ExactlyProneHoldingsExceed`); `TopUps.ACentOver` is one of ten cents.
- **A late bar and an action.** A replay order that misses its opening bar waits one more session, and an action that
  takes effect in between does not cancel it. If the bar turns up by then, a buy is filled behind the split or the
  dividend, for shares as they were before, and a sell behind the dividend; a sell never behind a split, since a split
  is refused while shares of its name are reserved, and stops the replay (`WaitingSells.WaitingSellStopsSplit`,
  `SellRuns.WaitingSellStopsReplay`). Only a late bar of a name together with an action of that name between the two
  openings can put a fill out of step (`LateRuns.OutOfStepIsExposed`), and it does whenever they come together in
  `LateReplay.ExactlyLateBarsFallOutOfStep`: an admitted replay that buys a hundred shares before a split and has a
  hundred after it (`LateReplay.LateFillMissesSplit`). The live commands guard against it.
- **Negative money text is refused.** `Money.String` prints a sign that `ParseMoney` does not accept; the round trip
  holds exactly for amounts that are not negative (`Decimals.MoneyRoundTrip`).

## Model

| member | source | states |
|---|---|---|
| Money.GrossIsNearestCent | backend/internal/modules/investment/domain/money.go:68-79 | The value of a holding is price times quantity rounded half up to the cent: within half a cent, ties upwards, never negative. |
| Money.GrossMonotone | backend/internal/modules/investment/domain/money.go:68-79 | Fewer shares are never worth more, and are in range whenever more shares are. |
| Money.GrossOfSum | backend/internal/modules/investment/domain/money.go:68-79 | Valuing two parts apart and together differs by at most one cent, either way. |
| Money.GrossOfSumCarries | backend/internal/modules/investment/domain/money.go:68-79 | The whole is worth a cent more than its parts if and only if both are rounded down and what they have beyond whole cents makes half a cent together; it is never worth more than that. |
| Money.ProneCarries | backend/internal/modules/investment/domain/money.go:68-79 | Every holding rounded down with a rest has a top-up that gains the cent, whose last share is worth a cent of its own. |
| Money.GrossOfSumInWholeCents | backend/internal/modules/investment/domain/money.go:68-79 | With a price in whole cents values add up exactly. |
| Money.FeeMonotone | backend/internal/modules/investment/domain/risk.go:155-167 | The fee is at least one cent and never falls as the trade grows. |
| Money.FeeWithinGross | backend/internal/modules/investment/domain/risk.go:155-167 | The fee of a trade is covered by its value if and only if the value is not zero. |
| Money.FeeInversion | backend/internal/modules/investment/domain/risk.go:234-240 | For every value, taking 10000/10001 of value plus fee, rounded down, gives the value back. |
| Money.ReservationRevealsTurnover | backend/internal/modules/investment/domain/risk.go:234-240 | The turnover recovered from the cash a pending buy holds is exactly its slipped value. |
| Money.CostMonotone | backend/internal/modules/investment/domain/risk.go:168-178 | The cost of a buy, fee included, is monotone through rounding, the fee floor and the overflow threshold. |
| Money.ProportionalCostBounds | backend/internal/modules/investment/domain/rebalance.go:243-258 | A share of a cost is within half a cent of the exact share, never more than the cost, and all of it for the last share. |
| Money.ShareBounds | backend/internal/modules/investment/domain/corporate_actions.go:42-65 | The basis lost with a fraction of a share is never more than the basis, and is all of it when nothing else is left. |
| Sizing.SmallerFits | backend/internal/modules/investment/domain/risk.go:264-335 | Every limit an order is sized against is downward closed, through rounding, fees and overflow. |
| Sizing.SizingIsOptimal | backend/internal/modules/investment/domain/risk.go:179-190 | The size found is the largest in its range that meets the limit; zero when none does. |
| Sizing.SearchRefinesScan | backend/internal/modules/investment/domain/risk.go:179-190 | The binary search gives what trying every size from the top gives. |
| Sizing.FindMaxWholeQuantity | backend/internal/modules/investment/domain/risk.go:179-190 | The search loop of the engine returns the largest size that fits. |
| Sizing.UpToMaximumFits | backend/internal/modules/investment/domain/risk.go:264-335 | Every positive size up to the maximum fits, so an order may be shrunk freely. |
| Sizing.FindSizeToCash | backend/internal/modules/investment/domain/backtest.go:431-449 | The loop that sizes a buy to the cash left computes its specification, giving up with the error of the first cost out of range. |
| Sizing.CashSizingIsOptimal | backend/internal/modules/investment/domain/backtest.go:431-449 | The size is the largest up to the planned one whose slipped cost, fee included, the cash left covers. |
| Decimals.ParsedValue | backend/internal/modules/investment/domain/money.go:16-33 | Text is read as its whole part plus its fraction scaled to the places; nothing is dropped or rounded. |
| Decimals.MoneyRoundTrip | backend/internal/modules/investment/domain/money.go:55-65 | Money printed is read back as it was, exactly for amounts that are not negative; negative ones are refused. |
| Decimals.PriceRoundTrip | backend/internal/modules/investment/domain/money.go:35-44 | Every price in range is read back from its own text, and every other is refused. |
| Decimals.QuantityRoundTrip | backend/internal/modules/investment/domain/money.go:45-54 | Every quantity in range is read back from its own text, and every other is refused. |
| Percentiles.RankPercentiles | backend/internal/modules/investment/domain/scoring.go:41-73 | Ranks over any sorted order equal the counting definition: those below plus half of the other equals, per cent of the rest, mirrored when lower is better; too few or unusable values are refused. |
| Percentiles.FillRanks | backend/internal/modules/investment/domain/scoring.go:56-71 | Walking the runs of equal values gives every position its rank, however the sort orders equal values. |
| Percentiles.RanksAverageFifty | backend/internal/modules/investment/domain/scoring.go:41-73 | The ranks of any values average exactly fifty. |
| Percentiles.RanksFollowFigures | backend/internal/modules/investment/domain/scoring.go:41-73 | A larger value ranks strictly higher, or strictly lower when lower is better. |
| Calendars.FirstDayAfterIsEarliest | backend/internal/modules/investment/domain/calendar.go:32-45 | The settlement day found is the earliest listed after the date, in whatever order days are listed; there is none exactly when no later day is listed. |
| Calendars.EarliestAfterIsEarliest | backend/internal/modules/investment/domain/calendar.go:19-31 | The session found is the earliest listed that opens after an instant; there is one exactly when such a session is listed. |
| Calendars.SettlementIsLater | backend/internal/modules/investment/domain/calendar.go:48-58 | Settlement begins strictly after the sale it settles. |
| MarketLoops.NextSession | backend/internal/modules/investment/domain/calendar.go:19-31 | The first session after an instant in a sorted copy is the earliest opening after it of all sessions, given the coverage. |
| MarketLoops.LatestCompleted | backend/internal/modules/investment/domain/calendar.go:67-81 | The scan finds the latest session closed by an instant, or stale data. |
| MarketLoops.LatestVersions | backend/internal/modules/investment/domain/snapshot.go:9-93 | Overwriting a map with the newer of two visible versions, in the order they are listed, and sorting its keys gives the ordered list of latest versions, in whatever order the keys of the map are walked. |
| MarketLoops.SelectSnapshot | backend/internal/modules/investment/domain/snapshot.go:9-93 | The map-and-sort selection of bars, facts and actions is the specified selection. |
| MarketLoops.QuoteBook | backend/internal/modules/investment/domain/risk.go:65-87 | The price book is the latest completed closes overwritten by the given prices, each of which must be positive. |
| MarketLoops.PreviousVolumeCapacity | backend/internal/modules/investment/domain/execution.go:54-81 | The sorted scan with its set of dates computes the specified capacity, refusing a repeated date or a negative volume. |
| Snapshots.SelectedBars | backend/internal/modules/investment/domain/snapshot.go:9-93 | Selected bars were known at the cutoff, come in strict order of name and date, and for every known bar hold one of its name and date ingested no earlier. |
| Snapshots.SelectedActions | backend/internal/modules/investment/domain/snapshot.go:9-93 | Selected actions were known at the cutoff, come in strict order of number, one version of each, and every known action has one. |
| Versions.LatestPicks | backend/internal/modules/investment/domain/snapshot.go:9-93 | What is selected for a key depends on the versions of that key alone: it is the one left by overwriting through them in the order listed. |
| Snapshots.StillSelected | backend/internal/modules/investment/domain/snapshot.go:55-67 | When the versions of each action say the same or supersede one another, a version of an action selected later that was known earlier was already selected then, or one that says the same was. |
| Snapshots.SelectionIsCausal | backend/internal/modules/investment/domain/snapshot.go:9-93 | Selecting at a cutoff is the same after everything published later is removed from the source. |
| Snapshots.QuotesArePositive | backend/internal/modules/investment/domain/risk.go:65-87 | Every price in a price book is positive. |
| LedgerLoops.ApplyFill | backend/internal/modules/investment/domain/ledger.go:14-85 | A fill changes one row in place, or adds one, moves the buckets, records one entry and sorts the rows, with every refusal of the engine; proved equal to the specification. |
| LedgerLoops.ReleaseOrder | backend/internal/modules/investment/domain/ledger.go:86-119 | A release gives back exactly what an order reserved; proved equal to the specification. |
| LedgerLoops.ReserveOrders | backend/internal/modules/investment/domain/reservation.go:3-47 | A batch is reserved in order on running balances and rows, a repeated order is refused; proved equal to the specification. |
| LedgerLoops.SettleReceivables | backend/internal/modules/investment/domain/settlement.go:7-30 | The sales due move from unsettled to available in turn, a repeated number is refused; proved equal to the specification. |
| LedgerLoops.ApplyCorporateAction | backend/internal/modules/investment/domain/corporate_actions.go:22-102 | Splits with cash in lieu and dividend accruals with every incomplete-action refusal; proved equal to the specification. |
| Reservations.ReserveKeepsBacking | backend/internal/modules/investment/domain/reservation.go:3-47 | Reserving keeps the reserve equal to what open buys hold, reserved shares equal to what open sells hold and within the shares held, and moves no shares. |
| Reservations.ReserveSucceeds | backend/internal/modules/investment/domain/reservation.go:3-47 | A well-formed order is refused only for want of free cash or free shares, or by overflow. |
| Reservations.ReleaseKeepsBacking | backend/internal/modules/investment/domain/ledger.go:86-119 | Closing an order by release takes exactly its own reserve out. |
| Reservations.ReleaseSucceeds | backend/internal/modules/investment/domain/ledger.go:86-119 | An open order can always be released, short of overflow. |
| Reservations.FillRows | backend/internal/modules/investment/domain/ledger.go:14-85 | An accepted fill keeps the rows sound, changes one name by the shares traded and its reserve by the shares released. |
| Reservations.FillKeepsBacking | backend/internal/modules/investment/domain/ledger.go:14-85 | Closing an order by a fill that carries all it holds keeps every reserve equal to what open orders hold. |
| Reservations.FillSucceeds | backend/internal/modules/investment/domain/ledger.go:14-85 | An affordable fill of an open order can be refused only by overflow. |
| Reservations.SplitRowIsSound | backend/internal/modules/investment/domain/corporate_actions.go:34-66 | After a split the basis is not negative and is zero when no share is left, and the cash in lieu is not negative. |
| Reservations.ActionRows | backend/internal/modules/investment/domain/corporate_actions.go:22-102 | An action records one entry that takes no cash, changes only its own name by the recorded quantity, and moves shares only of a name with none reserved. |
| Reservations.ActionKeepsBacking | backend/internal/modules/investment/domain/corporate_actions.go:22-102 | Corporate actions leave every reservation intact. |
| CostBasis.RowFollowsBasis | backend/internal/modules/investment/domain/ledger.go:68-74 | Sells taken by the ledger one by one leave the quantity and basis of the recurrence studied below. |
| CostBasis.BasisStaysProRata | backend/internal/modules/investment/domain/rebalance.go:243-258 | After n partial sells the basis left is within n/2 cents of its exact share by quantity, and is zero when no share is left. |
| CostBasis.SellsStayProRata | backend/internal/modules/investment/domain/ledger.go:68-74 | So a row of the ledger after n sell fills is within n/2 cents of its pro-rata basis. |
| CostBasis.LiquidationTakesAll | backend/internal/modules/investment/domain/rebalance.go:242-258 | Selling a whole row takes every cent of its basis. |
| Risk.ExposureIsValue | backend/internal/modules/investment/domain/risk.go:88-154 | Exposure is the total value of the holdings: in all, by name and by industry; it exists only when every holding has a price and a known industry. |
| Risk.OrderSizeIsOptimal | backend/internal/modules/investment/domain/risk.go:194-345 | The maximum quantity is the largest meeting every cash, weight and turnover limit, and an order is allowed if and only if it meets them. |
| RiskLoops.PortfolioExposure | backend/internal/modules/investment/domain/risk.go:88-154 | The maps filled over positions and pending buys are the specified exposure, with every refusal. |
| RiskLoops.TurnoverAfter | backend/internal/modules/investment/domain/risk.go:228-263 | The turnover left after the competing open orders, buys counted by the cash they hold. |
| RiskLoops.AvailableShares | backend/internal/modules/investment/domain/risk.go:264-281 | Free shares of a name plus those of the order being matched. |
| RiskLoops.ValidateOrder | backend/internal/modules/investment/domain/risk.go:194-345 | The whole order check, search included, equals its specification, and its maximum is the largest size that fits. |
| RiskLoops.ComputeNAV | backend/internal/modules/investment/domain/risk.go:346-373 | Net asset value accumulated over positions equals its specification. |
| Valuation.AddHoldingsIsSum | backend/internal/modules/investment/domain/risk.go:346-373 | Valuing holdings succeeds exactly when each has a price, each value is in range and the total fits, and then adds their values. |
| Valuation.NavDependsOnHoldings | backend/internal/modules/investment/domain/risk.go:346-373 | Net asset value depends on the shares held of each name only, not on rows or their order. |
| RebalanceLoops.BuildRebalance | backend/internal/modules/investment/domain/rebalance.go:18-240 | Four passes of sells over projected rows and one of buys with running cash, turnover and holdings: the plan built is the specified one. |
| RebalanceSteps.AppendSellEffect | backend/internal/modules/investment/domain/rebalance.go:65-93 | A planned sell takes the allowed part of what is asked off the row and adds its value to the turnover; nothing is planned when nothing is allowed. |
| RebalanceSteps.BuyStepEffect | backend/internal/modules/investment/domain/rebalance.go:167-235 | A planned buy is within every limit at once, measured on the rows projected so far, and takes its cost off the cash and its value off the turnover. |
| RebalanceBudgets.PlanIsInBudget | backend/internal/modules/investment/domain/rebalance.go:61-93 | Buys cost no more than the starting free cash, every ordinary order is within the turnover left before it, risk-reducing sells bypass the limit but count, and no name is sold beyond its free shares. |
| RebalanceCaps.EmergencySellIsFull | backend/internal/modules/investment/domain/rebalance.go:125-158 | A sell that reduces risk is carried out in full. |
| RebalanceCaps.ReductionsMeetCaps | backend/internal/modules/investment/domain/rebalance.go:125-158 | After the reductions every name, every industry and the stock total are within their limits exactly. |
| RebalanceRounding.PlanMeetsCaps | backend/internal/modules/investment/domain/rebalance.go:125-235 | If a plan neither pauses nor defers, the portfolio it leads to has every name within its limit and every industry and the stock total within theirs plus one cent, and within theirs exactly if and only if no buy takes all the room it has while its rests carry a cent. |
| RebalanceRounding.SteadyPlansAreExact | backend/internal/modules/investment/domain/rebalance.go:160-235 | Every limit is met exactly when each held entry candidate is worth whole cents or is rounded up, whatever the cash, the limits and the scores. |
| RebalanceRounding.WholeCentPlansAreExact | backend/internal/modules/investment/domain/rebalance.go:160-235 | So it is when prices are in whole cents. |
| TopUps.ProneHoldingExceeds | backend/internal/modules/investment/domain/rebalance.go:160-235 | For every price and quantity in range whose value is rounded down with a rest there is an account that enters a name held so and whose plan ends a cent over a limit. |
| TopUps.ExactlyProneHoldingsExceed | backend/internal/modules/investment/domain/rebalance.go:160-235 | A plan can end over a limit because of a held candidate if and only if its value leaves between 1 and 4999 micro-dollars above whole cents, that is, (price times quantity) modulo 10000 is between 1 and 4999. |
| TopUps.ACentOver | backend/internal/modules/investment/domain/rebalance.go:160-235 | A concrete account of ten cents whose plan tops up a share and ends with industry and stocks a cent over their limits. |
| RepeatedSells.SellsOfPlan | backend/internal/modules/investment/domain/rebalance.go:94-158 | The sells of a name in a plan are one for the exits if they sell it and one for each limit exceeded when its row is reached. |
| RepeatedSells.SoldTwiceIff | backend/internal/modules/investment/domain/rebalance.go:94-158 | A plan sells a name twice if and only if two of these apply: the exits sell it, and the single-name, the industry or the stock limit is exceeded at its turn. |
| RepeatedSells.SingleCutIff | backend/internal/modules/investment/domain/rebalance.go:125-158 | The single-name limit cuts a name exactly when what the exits left of it is worth more than the limit. |
| RepeatedSells.ExitSize | backend/internal/modules/investment/domain/rebalance.go:65-93 | An exit sells the largest part of the row that the turnover left allows: all of it exactly when its value fits. |
| Execution.CapacityFromLatestSessions | backend/internal/modules/investment/domain/execution.go:54-81 | Capacity is one part in two thousand, rounded down, of the volume of the twenty latest distinct sessions completed before the opening. |
| Execution.MatchedFillIsAcceptable | backend/internal/modules/investment/domain/execution.go:82-148 | A fill the matcher returns is within the order, its capacity and the capacity left, is affordable from what the order holds, and accounts for the rest as cancelled. |
| Execution.MatchThenFill | backend/internal/modules/investment/domain/execution.go:82-148 | A fill matched for an open order of a backed book is accepted by the ledger except on overflow, and keeps the book backed. |
| ReplayBooks.MatchAtOpen | backend/internal/modules/investment/domain/execution.go:82-148 | The matcher, refusals in their order, equals its specification. |
| BookEvents.IssuePosts | backend/internal/modules/investment/domain/backtest.go:457-462 | Issuing an order records its reservation and nothing else. |
| BookEvents.ReleasePosts | backend/internal/modules/investment/domain/backtest.go:103-113 | Releasing an order records one entry giving back what it holds and closes that order only. |
| BookEvents.FillPosts | backend/internal/modules/investment/domain/backtest.go:555-575 | A fill records one entry: what a buy holds less cost and fee back to available, or the proceeds less fee to unsettled; one order is closed. |
| BookEvents.ActionPosts | backend/internal/modules/investment/domain/backtest.go:115-131 | An action records one entry effective at its own instant that takes no cash. |
| BookEvents.PaymentPosts | backend/internal/modules/investment/domain/backtest.go:132-146 | A payment moves exactly what was accrued from dividends to available. |
| BookMeaning.SettlementIsExact | backend/internal/modules/investment/domain/settlement.go:7-30 | A settlement settles exactly the sales that are due and moves exactly their proceeds. |
| BookMeaning.IssueKeepsSound | backend/internal/modules/investment/domain/backtest.go:416-466 | Issuing keeps buckets equal to obligations, the ledger equal to the books and total cash conserved. |
| BookMeaning.ReleaseKeepsSound | backend/internal/modules/investment/domain/backtest.go:103-113 | So does a release. |
| BookMeaning.FillKeepsSound | backend/internal/modules/investment/domain/backtest.go:555-575 | So does a fill, which opens the obligation to settle its proceeds. |
| BookMeaning.SettleKeepsSound | backend/internal/modules/investment/domain/backtest.go:62-80 | So does a settlement, which closes those obligations and no others. |
| BookMeaning.ActionKeepsSound | backend/internal/modules/investment/domain/backtest.go:115-131 | So does an action taken once. |
| BookMeaning.PaymentKeepsSound | backend/internal/modules/investment/domain/backtest.go:132-146 | So does a dividend paid once, which closes its accrual. |
| Causality.IssueKeepsCausal | backend/internal/modules/investment/domain/backtest.go:416-466 | A reservation, effective when it is made, leaves the fold at every cutoff able to meet the obligations open at that cutoff. |
| Causality.ReleaseKeepsCausal | backend/internal/modules/investment/domain/backtest.go:103-113 | So does a release, effective when it is recorded. |
| Causality.FillKeepsCausal | backend/internal/modules/investment/domain/backtest.go:555-575 | So does a fill, although it is recorded after it is effective. |
| Causality.SettleKeepsCausal | backend/internal/modules/investment/domain/backtest.go:62-80 | So does a settlement, effective strictly after its sale. |
| Causality.ActionKeepsCausal | backend/internal/modules/investment/domain/backtest.go:115-131 | So does an action, when no share moved after its instant. |
| Causality.PaymentKeepsCausal | backend/internal/modules/investment/domain/backtest.go:132-146 | So does a payment, effective when payable, no earlier than its accrual. |
| Reconciling.ReconcileKeeps | backend/internal/modules/investment/domain/backtest.go:62-149 | A reconciliation that succeeds keeps the whole invariant when no share has moved after an action still to be taken, and has taken every relevant action it selected that is in force, superseded versions of other economics allowed. |
| Planning.PlanKeeps | backend/internal/modules/investment/domain/backtest.go:384-467 | Planning keeps the whole invariant whatever the plan is, and its orders wait for an opening no fill has reached. |
| Planning.PlansAreReservable | backend/internal/modules/investment/domain/backtest.go:416-466 | Orders within their budget are accepted one after another: issuing them can stop only at market data or overflow. |
| Planning.NextOrderIsReservable | backend/internal/modules/investment/domain/backtest.go:430-462 | Each order that can be sized can be reserved, and leaves what the rest of the plan needs. |
| Planning.RebalancePlansAreReservable | backend/internal/modules/investment/domain/backtest.go:404-466 | Whatever the data and the scoring, every order of a plan built from a sound book without open orders is accepted once it is sized. |
| Executing.ExecuteKeeps | backend/internal/modules/investment/domain/backtest.go:468-580 | An execution keeps the whole invariant, fills no order twice, and fills no more shares of an opening than the smallest capacity of its orders. |
| Executing.FillKeepsCapacity | backend/internal/modules/investment/domain/backtest.go:532-542 | A fill within the smallest capacity less what is already filled keeps every order of that opening and name within its capacity. |
| Running.OpenSessionKeeps | backend/internal/modules/investment/domain/backtest.go:238-248 | Reconciling at the decision and planning keep the invariant. |
| Running.CloseSessionKeeps | backend/internal/modules/investment/domain/backtest.go:249-269 | Reconciling at the open, executing and reconciling at the next decision keep it. |
| Running.RunKeeps | backend/internal/modules/investment/domain/backtest.go:234-291 | So it holds after every session of every replay that succeeds. |
| Guarantees.BucketsMean | backend/internal/modules/investment/domain/backtest.go:52-149 | After every session: reserved is what open buys hold, unsettled the net proceeds not yet settled, dividends the accruals not yet paid, reserved shares what open sells hold and within the shares held, and no basis without shares. |
| Guarantees.CashIsConserved | backend/internal/modules/investment/domain/backtest.go:52-61 | After every session: total cash is the initial cash less cost and fee of buys, plus sells less fees, plus dividends and cash in lieu; every bucket and holding is the sum of its ledger changes. |
| Guarantees.CapacityIsKept | backend/internal/modules/investment/domain/backtest.go:532-542 | After every session all shares filled for an opening and name are within the capacity of each order for it. |
| Refold.RefoldNeverLacksCash | backend/internal/modules/investment/domain/backtest.go:327-343 | A ledger no prefix of which folds below zero is refolded to the sum of its entries, refused only by overflow. |
| Refold.RefoldedHoldings | backend/internal/modules/investment/domain/backtest.go:344-351 | Folded quantities that are never negative give exactly those holdings. |
| Restating.RefoldAtEveryCutoff | backend/internal/modules/investment/domain/backtest.go:324-351 | After every session of every replay that succeeds, folding the entries effective by any cutoff, in the order they were recorded, never makes a bucket or a holding negative. |
| Restating.RefoldIsTheBook | backend/internal/modules/investment/domain/backtest.go:324-351 | At a cutoff by which everything is effective the refold is the incremental book, to the cent and the share. |
| Restating.LastPointAgrees | backend/internal/modules/investment/domain/backtest.go:324-383 | The last restated value equals the value computed in the run. |
| Restating.CurveOfRun | backend/internal/modules/investment/domain/backtest.go:324-383 | Restating the curve of a successful run fails only for overflow or missing data, never for want of cash or shares. |
| Admission.AdmittedDays | backend/internal/modules/investment/domain/backtest.go:178-204 | The days of an admitted replay over a spaced calendar follow one another, in whatever order the calendar lists its sessions, so every result about runs applies to it. |
| Admission.CurveEndsAtClosingNav | backend/internal/modules/investment/domain/backtest.go:295-298 | Of every replay over a spaced calendar that succeeds, the restated curve ends at the value computed in the run. |
| NoLookAhead.NothingLaterMatters | backend/internal/modules/investment/domain/backtest.go:234-291 | Inputs that agree on every bar, fact and action published by an instant reach the same book, or the same error, after every session decided by then. |
| NoLookAhead.FutureIsIrrelevant | backend/internal/modules/investment/domain/backtest.go:234-291 | A session is the same over a source cut down to what was published by its decision time. |
| NoLookAhead.AdmittedAlike | backend/internal/modules/investment/domain/backtest.go:180-222 | Such inputs are admitted alike over the same sessions once the warm-up data is published. |
| NoLookAhead.LaterSessionsDoNotMatter | backend/internal/modules/investment/domain/backtest.go:234-291 | Extending a replay changes nothing it already did. |
| Volumes.RunKeepsVolume | backend/internal/modules/investment/domain/backtest.go:426-430 | Every order of a run has the capacity computed from the volume known when it was decided. |
| Volumes.FillsWithinVolume | backend/internal/modules/investment/domain/backtest.go:508-542 | Over all executions of a run, two thousand times the shares filled for an opening and name are within the volume of twenty clean sessions completed before it and known at the decision. |
| SharedNumbers.SettledAreDistinct | backend/internal/modules/investment/domain/settlement.go:10-13 | A settlement that succeeds was given no number twice. |
| SharedNumbers.SettlesIffDistinct | backend/internal/modules/investment/domain/settlement.go:7-30 | A sound book whose sales have settlement days settles if and only if no two unsettled sales share a number. |
| SharedNumbers.StuckBookNeverReconciles | backend/internal/modules/investment/domain/backtest.go:62-73 | A book with two unsettled sales of one number is refused by every reconciliation. |
| DistinctSales.IssuesUnder | backend/internal/modules/investment/domain/backtest.go:416-466 | The sells issued for a session under a number are exactly the planned sells of its name: two sells of one name share a number. |
| DistinctSales.DistinctIffFilledOnce | backend/internal/modules/investment/domain/backtest.go:62-80 | The sales a book has still to settle share no number if and only if no two sells have been filled under one. |
| DistinctSales.FilledTwiceIsStuck | backend/internal/modules/investment/domain/backtest.go:62-80 | Two sells filled under one number that is not settled yet: every later reconciliation refuses the book. |
| SettlingRuns.RunKeepsNumbers | backend/internal/modules/investment/domain/backtest.go:234-291 | After every session of every replay that succeeds there are as many sales under a number as filled sells, and at most one when no plan sold a name twice. |
| SettlingRuns.SalesOfRun | backend/internal/modules/investment/domain/backtest.go:234-291 | When the orders of a session of any replay have been executed, its sales share no number if and only if no two sells were filled under one, and they share none if no plan so far sold a name twice. |
| SettlingRuns.SharedNumberStops | backend/internal/modules/investment/domain/backtest.go:249-269 | A replay in which two sells are filled under one number stops in that session. |
| StoppedPlan.OneNameIsSoldTwice | backend/internal/modules/investment/domain/rebalance.go:89-158 | A concrete account, reached by a replay, whose plan sells one name twice: an exit cut short by the turnover limit, then a risk reduction. |
| StoppedReplay.SellsExecuted | backend/internal/modules/investment/domain/backtest.go:468-580 | Both sells are filled in full at one opening, the second beyond the turnover limit, under one number. |
| StoppedReplay.TwoSellsStopTheReplay | backend/internal/modules/investment/domain/backtest.go:178-298 | A concrete replay is admitted, gets through its first session, sells a name twice in its second, and fails there and for good. |
| LateBars.LateOpeningIsLateBar | backend/internal/modules/investment/domain/backtest.go:508-510 | An opening that was not there at the decision of its session and turns up before the order expires comes with a bar of that name and session, published after that decision and by the next close. |
| LateFills.FilledInStep | backend/internal/modules/investment/domain/backtest.go:486-545 | When every open order is for this session or waits since the previous one, an order that finds its opening is overtaken by no action taken so far, unless it waits for a name with a late bar and an action between the two openings. |
| LateFills.ExecuteInStep | backend/internal/modules/investment/domain/backtest.go:468-580 | After an execution every open order is for this session and waits for its opening, and the fills are in step unless such a name was exposed. |
| LateRuns.OutOfStepIsExposed | backend/internal/modules/investment/domain/backtest.go:234-291 | In every admitted replay over a spaced calendar no fill is recorded behind an action of its name that took effect after it, unless for some session a name of the universe has a bar published after its decision and an action that takes effect after its opening and by the next one. |
| LateReplay.ExactlyLateBarsFallOutOfStep | backend/internal/modules/investment/domain/backtest.go:103-131 | For every publication instant of one bar and every instant of one split the replay is admitted, and it falls out of step if and only if the bar is published after the decision of its session and by the next close, and the split takes effect after that opening and by the next. |
| LateReplay.LateFillMissesSplit | backend/internal/modules/investment/domain/backtest.go:486-575 | Whenever they do, a buy is filled behind a split of its name and the second session ends with shares the split should have doubled. |
| WaitingSells.LeftOpenIffWaiting | backend/internal/modules/investment/domain/backtest.go:103-114 | After a split has cancelled the orders it invalidates, a sell of its name is open if and only if one was waiting for an opening before the split takes effect. |
| WaitingSells.WaitingSellStopsSplit | backend/internal/modules/investment/domain/corporate_actions.go:36-44 | A split that has to be taken while a sell of its name waits for an earlier opening is refused. |
| WaitingSells.WaitingSellStopsReconcile | backend/internal/modules/investment/domain/backtest.go:62-149 | So the reconciliation is refused, unless another split it takes, in force by the opening of the sell, cancels the sell. |
| SellRuns.WaitingSellStopsReplay | backend/internal/modules/investment/domain/backtest.go:234-291 | A sell still open after a session that meets a split taking effect after its opening and by the next one stops the replay. |
| SellRuns.SellsFollowSplits | backend/internal/modules/investment/domain/backtest.go:234-291 | After every session of every replay that succeeds, whatever the bars do, no sell is recorded as filled behind a split of its name that took effect after its opening. |
| ReplayBooks.ReplayBook.constructor | backend/internal/modules/investment/domain/backtest.go:49-51 | A new book: the initial cash available, nothing held, ordered, recorded or paid. |
| ReplayBooks.ReplayBook.Settle | backend/internal/modules/investment/domain/backtest.go:63-80 | Unsettled sales are settled and marked; proved equal to the specification. |
| ReplayBooks.ReplayBook.CancelForSplit | backend/internal/modules/investment/domain/backtest.go:103-114 | Open orders of the name opening at or after the split are released and cancelled. |
| ReplayBooks.ReplayBook.TakeAction | backend/internal/modules/investment/domain/backtest.go:99-131 | An action not taken yet is applied to the shares held before it, splits of its instant included. |
| ReplayBooks.ReplayBook.PayAction | backend/internal/modules/investment/domain/backtest.go:132-146 | A dividend is paid once, from the first entry of its accrual. |
| ReplayBooks.ReplayBook.Reconcile | backend/internal/modules/investment/domain/backtest.go:62-149 | The whole reconciliation, actions in order of effect with splits first, equals the specification. |
| ReplayBooks.ReplayBook.Plan | backend/internal/modules/investment/domain/backtest.go:384-467 | Planning with its early returns, the pause and the issue of orders equals the specification. |
| ReplayBooks.ReplayBook.IssueOrders | backend/internal/modules/investment/domain/backtest.go:416-466 | Orders are sized to the running cash, reserved and appended one by one. |
| ReplayBooks.ReplayBook.SizeOrder | backend/internal/modules/investment/domain/backtest.go:417-456 | A planned trade becomes an order with its capacity and its reserve, or nothing. |
| ReplayBooks.ReplayBook.ExecuteOrder | backend/internal/modules/investment/domain/backtest.go:486-578 | An order is executed with the remembered day: data, capacity used and turnover, kept equal to what the fills say. |
| ReplayBooks.ReplayBook.Execute | backend/internal/modules/investment/domain/backtest.go:468-580 | The whole execution over sorted orders with its cache of days equals the specification, which recomputes each day. |
| ReplayBooks.ReplayBook.RunSession | backend/internal/modules/investment/domain/backtest.go:234-291 | One session of the loop equals the specification. |
| ReplayBooks.ReplayBook.RefoldLedger | backend/internal/modules/investment/domain/backtest.go:327-343 | The fold of the entries effective by a cutoff gives the specified buckets and quantities. |
| ReplayBooks.ReplayBook.EconomicPoint | backend/internal/modules/investment/domain/backtest.go:344-380 | A point of the curve is the specified one, whatever order the map of quantities is walked in. |
| ReplayBooks.ReplayBook.EconomicCurve | backend/internal/modules/investment/domain/backtest.go:324-383 | The curve is the specified one. |
| ReplayBooks.Replay | backend/internal/modules/investment/domain/backtest.go:178-298 | The replay loop: admission, a session after another, the restated curve; the book it returns is the specified run. |
| LiveReserves.ReserveKeeps | backend/internal/modules/investment/application/command/reserve_orders.go:20-54 | Reserving a batch keeps the stored reserves, the sums of the ledger and the life of every order. |
| LiveReserves.ReleaseKeeps | backend/internal/modules/investment/application/command/reserve_orders.go:78-96 | Closing a stored order by a release keeps them. |
| LiveReserves.FillKeeps | backend/internal/modules/investment/application/command/execute_orders.go:168-233 | Closing a stored order by a fill keeps them. |
| LiveRuns.CancelBeforeOpenKeeps | backend/internal/modules/investment/application/command/reserve_orders.go:57-102 | A bulk cancellation keeps them. |
| LiveRuns.PlaceKeeps | backend/internal/modules/investment/application/command/place_order.go:22-114 | Placing an order keeps them, whatever it answers. |
| LiveRuns.CancelKeeps | backend/internal/modules/investment/application/command/cancel_order.go:22-80 | Cancelling keeps them, the committed advance with a refusal included. |
| LiveRuns.ConfigureKeeps | backend/internal/modules/investment/application/command/configure_automation.go:23-101 | Configuring automation keeps them. |
| LiveRuns.AdoptKeeps | backend/internal/modules/investment/application/command/evaluate_account.go:148-158 | Adopting a pending configuration keeps them. |
| LiveRuns.EvaluateKeeps | backend/internal/modules/investment/application/command/evaluate_account.go:277-440 | The order-issuing transaction keeps them, the drawdown pause included. |
| LiveRuns.ExecuteKeepsReserves | backend/internal/modules/investment/application/command/execute_orders.go:31-241 | Executing orders keeps them. |
| LiveRuns.ReconcileKeepsReserves | backend/internal/modules/investment/application/command/reconcile_account.go:29-265 | Reconciling keeps them, a blocked split after its cancellations included. |
| LiveRuns.RunsKeepReserves | backend/internal/modules/investment/application/command/reserve_orders.go:19-102 | So does every sequence of commands. |
| LiveRuns.ReservationsCloseOnce | backend/internal/modules/investment/application/command/execute_orders.go:31-241 | After any sequence of commands the reserves equal what stored open orders hold, every bucket is the sum of its entries, and each order was reserved once and, when closed, closed by exactly one fill or release of all it held. |
| LiveOpenings.OpenedOrdersSurvive | backend/internal/modules/investment/application/command/reserve_orders.go:56-77 | Placing, cancelling, configuring or evaluating leaves every order whose opening has come open, on its terms and with its reserve: a late pause cannot undo the open. |
| LiveHistory.HistoryIsKept | backend/internal/modules/investment/application/command/reserve_orders.go:19-102 | Whatever commands follow, ledger and fills only grow, each entry under a number of its own, an order keeps its terms, a closed one stays as it was closed, and no fill takes one beyond its capacity. |
| LiveHistory.MatchFits | backend/internal/modules/investment/application/command/execute_orders.go:133-233 | What the matcher fills leaves every order of that opening date and name within its capacity. |
| LiveBuckets.LiveBucketsMean | backend/internal/modules/investment/application/command/reconcile_account.go:91-265 | After any sequence of commands unsettled cash is the proceeds of the sales not yet settled and dividends the accruals not yet paid. |
| LiveBuckets.LiveCashIsConserved | backend/internal/modules/investment/application/command/execute_orders.go:168-233 | After any sequence of commands total cash is the initial cash less gross and fee of buys, plus gross less fee of sells, plus dividends accrued and cash in lieu. |
| LiveCapacity.OrdersAreSized | backend/internal/modules/investment/application/command/place_order.go:22-114 | Every order stored has the capacity computed from the volume known to the command that stored it. |
| LiveCapacity.LiveFillsWithinVolume | backend/internal/modules/investment/application/command/execute_orders.go:133-233 | In the order of time, every fill is at the opening of an order of its name, and two thousand times all that is filled for that date and name is within the volume of twenty clean sessions completed before the opening and known to the command that stored the order. |
| LiveCapacity.LiveCapacityIsKept | backend/internal/modules/investment/application/command/execute_orders.go:133-233 | After any sequence of commands in the order of time, all shares filled for an opening date and a name are within the capacity of each order stored for it. |
| LivePromises.PlaceLeaves | backend/internal/modules/investment/application/command/place_order.go:22-114 | An accepted request is stored on the terms asked for, its reserve taken out of free cash or free shares; a refused or failed one changes nothing. |
| LivePromises.CancelLeaves | backend/internal/modules/investment/application/command/cancel_order.go:22-80 | An accepted cancellation closes the order before its opening and frees exactly what it held; a refused one at most lets it wait for its bar. |
| LivePromises.CancelBeforeOpenQuiets | backend/internal/modules/investment/application/command/reserve_orders.go:57-102 | After a bulk cancellation no order is left that could still be cancelled, or no buy when only buys are. |
| LivePromises.ConfigureLeaves | backend/internal/modules/investment/application/command/configure_automation.go:23-101 | Switching automation off leaves no order to cancel and changing it no buy; a refused or failed request changes nothing. |
| LivePromises.ExecuteLeaves | backend/internal/modules/investment/application/command/execute_orders.go:31-241 | An execution fails as a whole or leaves no due order open past its deadline. |
| LivePromises.ReconcileLeaves | backend/internal/modules/investment/application/command/reconcile_account.go:91-111 | A reconciliation fails as a whole or settles every sale whose settlement has begun. |
| LivePromises.DeskMeans | backend/internal/modules/investment/application/command/reserve_orders.go:20-54 | In a valid desk the reserve is what open orders hold, unsettled cash and dividends the claims still open, and each order is closed once or not at all. |
| LiveDesks.LiveDesk.constructor | backend/internal/modules/investment/application/command/create_account.go:23-45 | A new desk has its initial cash free, automation off, and is valid. |
| LiveDesks.LiveDesk.CancelBeforeOpen | backend/internal/modules/investment/application/command/reserve_orders.go:57-102 | Opened orders are advanced, the others released and closed, in the listed order. |
| LiveDesks.LiveDesk.SizeLive | backend/internal/modules/investment/application/command/evaluate_account.go:366-411 | A planned trade becomes an order sized to the cash left, or nothing. |
| LiveDesks.LiveDesk.CancelSplit | backend/internal/modules/investment/application/command/reconcile_account.go:150-176 | Orders a split invalidates are released as of the split and cancelled. |
| LiveDesks.LiveDesk.ExecuteOrders | backend/internal/modules/investment/application/command/execute_orders.go:31-241 | The execution over sorted orders, skipping those not due, stores what the specification says, or puts everything back. |
| LiveDesks.LiveDesk.ReconcileAccount | backend/internal/modules/investment/application/command/reconcile_account.go:29-265 | The whole reconciliation stores what the specification says, or puts everything back. |
| LiveDesks.LiveDesk.Place | backend/internal/modules/investment/application/command/place_order.go:22-114 | Keeps the desk valid and its history; an accepted order is stored as asked with its reserve, otherwise nothing changes; opened orders survive. |
| LiveDesks.LiveDesk.Cancel | backend/internal/modules/investment/application/command/cancel_order.go:22-80 | Keeps the desk valid and its history; an accepted cancellation gives the reserve back, a declined one changes no cash, share or entry, a failed one nothing; opened orders survive. |
| LiveDesks.LiveDesk.Configure | backend/internal/modules/investment/application/command/configure_automation.go:23-101 | Keeps the desk valid and its history; an accepted request leaves nothing, or no buy, to cancel, and a refused one changes nothing; opened orders survive. |
| LiveDesks.LiveDesk.Evaluate | backend/internal/modules/investment/application/command/evaluate_account.go:277-440 | Keeps the desk valid and its history, never declines, leaves no trace of a failure; opened orders survive, a pause for drawdown included. |
| LiveDesks.LiveDesk.Execute | backend/internal/modules/investment/application/command/execute_orders.go:31-241 | Keeps the desk valid and its history; no due order is left open past its deadline, or the execution leaves no trace. |
| LiveDesks.LiveDesk.Reconcile | backend/internal/modules/investment/application/command/reconcile_account.go:29-265 | Keeps the desk valid and its history; every sale whose settlement has begun is settled, or the reconciliation leaves no trace. |
| LiveDesks.LiveDesk.Run | backend/internal/modules/investment/application/command/execute_orders.go:24-28 | Any command keeps the desk valid and rewrites nothing; a failed one leaves no trace. |

## Left out

- ReplayBooks.ReplayBook.EconomicPoint: agrees with the specification on success and on failing, but when several
  reasons to fail apply the kind of error may differ, because the engine walks a map in no particular order.
- ReplayBooks.ReplayBook.EconomicCurve: likewise, for every point.
- ReplayBooks.ReplayBook.CloseUnfilled: after a failure, here and in the other operations of the book, the state of the
  book is not specified; the replay stops there.
- ReplayBooks.ReplayBook.Execute: the day cache is keyed by the opening instant, where the engine formats it to seconds.
- SharedNumbers.SettlesIffDistinct: asks that every sale has a settlement day in the calendar and that the account can
  hold the proceeds; otherwise the settlement is refused for that reason.
- ReplayBooks.Replay: leaves the kind of a curve error open, and its result has no benchmark, trace or metrics.
- RebalanceRounding.PlanMeetsCaps: is about holdings that are tradable stocks with a price and a known industry, as the
  engine computes exposure for no others.
- TopUps.ProneHoldingExceeds: the account it builds stays in the 64-bit range for prices up to `TopUps.HIGHEST_PRICE` and
  for quantities up to ten thousand shares below the largest order.
- Running.RunKeeps: asks for the source of `Running.WellFormedSource`; when versions of one action differ and were ingested
  out of turn, "newer" is no order, and which of them is selected depends on the order in which they are listed.
- LateRuns.OutOfStepIsExposed: is one way for all replays, as a waiting order may still expire, be refused or be filled
  before the action is taken; `LateReplay.ExactlyLateBarsFallOutOfStep` is both ways for one replay and all instants.
- LiveRuns.ReservationsCloseOnce: is about one account, whose row lock puts its transactions in one order; scopes,
  several accounts and database failures are not modelled beyond a transaction that leaves no trace.
- Sums of shares and cash that the engine adds without a check (quantities folded into maps, capacity and turnover of a
  day) are unbounded here; the checked additions have their 64-bit range.
- The benchmark book, its curve and `benchmark.go`: the same operations over a single buy.
- The trace, quality flags, performance metrics, risk snapshots and evaluation records: reports, not state.
- `mergedReplaySource`: a replay starts from one merged source.
- Scoring beyond percentile ranks, indicators and financial ratios: floating-point reporting; scoring is a parameter.
- Policy weights are reals, where the engine reads the decimal text of a float as a rational.
- `AdjustedBars`, the industry table and the industry label of a position: labels that no modelled operation reads.
- The rule that turns a settlement date into an instant in New York: a settlement day carries its own instant.
- Identifiers, hashing, JSON, context cancellation, idempotency records of mutations, catalog lookups and the check of
  an account's dataset: parameters or plumbing.
- The execution handler without an action store, and a recorded action that cannot be read back.
- The web application, HTTP handlers, database, queue, mail and market-data adapters, and the other modules.
