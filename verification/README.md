# Verified model of the keeper

A Dafny model of the stateful core of a trading keeper that signs with a real wallet,
and proofs about it. Each part is a state machine that has to hold under every
interleaving of timers, awaited calls and remote replies.

| part | modules | main question |
|---|---|---|
| Leader lease | `LeaseNode`, `LeaderLock`, `LeaseProtocol`, `Renewal`, `LeaseStint`, `SingleWriter`, `LateAcquisition` | can two nodes write at once? |
| Spend breaker | `BudgetState`, `KeeperBudget`, `BudgetLog`, `BudgetCycle`, `BudgetLedger`, `BudgetSliding`, `BudgetTumbling`, `BudgetStraddle`, `BudgetRent`, `BudgetHourCap`, `KeeperSend`, `SendRecords`, `Events` | what can the wallet lose in any hour, day or cycle? |
| Liquidation | `LiquidationGate`, `PortfolioHealth`, `PortfolioLegs`, `RotatingCursor`, `Ranking` | is anything liquidated twice, missed, or never scanned? |
| RPC routing | `RpcHealth`, `RpcRecovery`, `RpcPool`, `RpcFailback` | when is a provider trusted again, and can a failover go back in time? |
| Account stream | `StreamQueue`, `StreamConnection` | is an update lost uncounted, a stream left behind? |
| Market bytes | `MarketBytes`, `MarketLayout`, `BackingBuckets` | is every bucket read from its own bytes, in bounds? |
| Crank | `CrankWatchdog` | do cycles overlap, and when does the process give up? |

`Prelude` holds shared value types.

How the parts are built. Where the program has an object whose methods update fields, the
model has a class with those fields; a method that awaits is split at its awaits. Each
method is proved to take the object's abstract value (`View()`) to a function of its old
value. Whole runs are then sequences of those functions, in any order the event loop
allows, and the theorems are about the runs. Histories (what was ever booked, evaluated,
started or delivered) are kept beside the state and never pruned, so that statements about
windows do not rest on the caches they are meant to check.

Redis is one key with an owner and an expiry. A request may be executed at any moment
after it was issued, several times or never; its reply may come late or never, and an error
may come instead. At the very millisecond of the expiry the key may be seen either way.

## Where the code and its own words differ

The model follows the code.

- The header of `src/lib/budget.ts` (lines 9-14) lists the spend caps among the latching
  halts; the per-cycle spend cap refuses softly (lines 416-418). `BudgetLog.CycleCapsNeverLatch`.
- `adjustForRealizedCost` is documented as a no-op while halted (`src/lib/budget.ts:566-568`);
  it does nothing only for a malformed cost (`BudgetLog.AdjustChangesExactly`), and `BudgetLog.HaltedTotalsMove`
  is a halted budget whose totals move.
- The hour cap is said to govern sustained spend whatever the cycle cap
  (`src/lib/budget.ts:187-190`); reconciliation compares the receipt's fee with an estimate
  that included the rent and hands the rent back (`src/lib/keeper-send.ts:442-454`). It governs
  if and only if no caller passes `extraLamports`: `BudgetHourCap.HourCapExactly`, and
  `DefaultHourCapExactly` for the shipped caps. Otherwise the overrun is at most what an hour
  hands back (`BudgetSliding.SlidingDrainBound`), and that much is reached
  (`BudgetHourCap.DrainBoundIsReached`).
- An unread oracle target is documented as never marking a portfolio healthier
  (`src/lib/v17-risk.ts:119-122`); dropping the penalty can only do that.
  `PortfolioHealth.UnreadTargetHides` gives the exact set of portfolios it hides and
  `UnsetTargetDoesHide` builds one from account bytes.
- The high-water mark is documented as keeping callers from observing a backwards slot across
  a provider transition (`src/lib/rpc-pool.ts:109-114`); it guards the transition to Alchemy,
  not the one back to Helius. `RpcPool.FloorExactly` and `RpcFailback.FailbackGoesBack`.
- A per-owner liquidation cap is said to bound both paths
  (`src/services/liquidation.ts:916-920`); a malformed value reads as NaN and bounds nothing.
  `LiquidationGate.MalformedCapNeverRefuses`; with a number, `OwnerCapsHold`.
- A negative `KEEPER_STREAM_DROP_QUEUE_MAX` passes the parser and makes every arrival count
  as a drop. `StreamQueue.ConservationExactly`.
- Stopping the loader is said to leave no subscription behind
  (`src/lib/account-loader.ts:327-332`); a restart while a connection attempt from before the
  stop is still in progress defeats that, and only that does.
  `StreamConnection.RestartSafeExactly`.
- A late acquisition reply still promotes. The lease theorem is unaffected, because it speaks
  of leaders inside their lease; sends are gated on the role alone, so the single-writer
  guarantee needs the reply within the ttl, exactly. `LateAcquisition.SingleWriterExactly`.

## Model

| member | source | states |
|---|---|---|
| `LeaseProtocol.MutualExclusion` | src/lib/leader.ts:189-256 | In every run of N nodes, with requests executed late, repeatedly or never and replies late or lost, no two nodes are leaders inside their leases |
| `LeaseProtocol.LeaderOwnsKey` | src/lib/leader.ts:13-19 | A leader before `leaseIssuedAt + ttlMs` owns the Redis key, and the key does not expire before that deadline; covers renew replies from an earlier stint |
| `LeaseProtocol.ElectionNeverWedges` | src/lib/leader.ts:362-421 | A started, unstopped node is always awaiting its first reply, or a standby with exactly one poll pending, or a leader with its watchdog armed for the end of the lease (or at once, if that is past) |
| `LeaseProtocol.ExecuteKeepsLease` | src/lib/leader.ts:13-19 | No SET NX, GET or compare-and-PEXPIRE executed by anybody takes the key from a granted lease that still runs |
| `LeaseProtocol.GrantIsLease` | src/lib/leader.ts:281-320 | A request is answered with success only together with a key that lasts to its own issue time plus the ttl |
| `LeaseProtocol.StepInv` | src/lib/leader.ts:189-421 | Every protocol step keeps the lease invariant |
| `LeaseProtocol.RedisExactly` | src/lib/leader.ts:13-19 | Redis grants SET NX a key that is not there and the renewal script a key that names its caller; the key is then the caller's for the ttl; nothing else changes it, and GET names the owner |
| `SingleWriter.SendsOnlyUnderTheKey` | src/lib/keeper-send.ts:227-383 | With on-time watchdogs and acquisitions answered within the ttl, the Redis key names the node at every moment it starts a send, though leadership may change during the cost estimate |
| `SingleWriter.SendsAreCheckedTwice` | src/lib/keeper-send.ts:227-383 | In every run an estimate that ends was begun by a leader and starts a send exactly if that node leads again; nothing else starts one |
| `LateAcquisition.SingleWriterExactly` | src/lib/leader.ts:212-256 | Every on-time run whose acquisitions are answered within a bound is safe in that sense if and only if the bound is at most the ttl, for every ttl |
| `LateAcquisition.LateAcquireBreaksSingleWriter` | src/lib/leader.ts:189-223 | For every ttl and every reply delay of at least the ttl: a run, otherwise on time, with two self-declared leaders and a send started while the other node holds the key; both renewals of an earlier stint failed in transit, and the second one, executed late, has shortened the key |
| `Renewal.RenewalNeverStops` | src/lib/leader.ts:225-360 | Over every run, whoever is leader has at most one strike and a renewal scheduled or under way, whatever became of earlier ones |
| `Renewal.RenewReplyDemotesExactly` | src/lib/leader.ts:281-360 | A renewal reply costs a leader the role exactly on a lost lease or on a second strike; success clears the strikes |
| `LeaseNode.ResumeKeepsWf` | src/lib/leader.ts:281-405 | Every reply to every kind of request leaves a node with sound watchdogs and a live election, or demoted |
| `LeaseNode.FireKeepsWf` | src/lib/leader.ts:225-256 | Every timer callback does so too |
| `LeaseNode.WatchdogOrigin` | src/lib/leader.ts:244-256 | A watchdog found after a reply was there before, or is dated from the issue of the request that this reply grants |
| `LeaseStint.GrantedRenewalExtends` | src/lib/leader.ts:302-306 | A granted renewal keeps the role, replaces the watchdog, and dates the new one from the issue of that renewal, due at the end of that lease |
| `LeaseStint.WatchdogIsOfTheLastGrant` | src/lib/leader.ts:212-360 | In every run: the watchdog of a leader is that of the request last granted to it in this stint, dated from its issue and due when that lease ends, or at once if it had ended when the grant was heard; its strikes are the renewals failed since, at most one |
| `LeaseStint.BecomesLeaderExactly` | src/lib/leader.ts:189-210 | A node becomes leader exactly when its SET NX is confirmed while it is not stopped |
| `LeaseStint.OnlyTheWatchdogDemotes` | src/lib/leader.ts:244-256 | Of the timers only the watchdog ends a leadership, and none begins one |
| `LeaseStint.TimersSend` | src/lib/leader.ts:225-242 | A renewal timer makes a leader send the renewal script, a poll timer makes a standby read the key; nothing else is sent |
| `LeaseStint.RepliesSend` | src/lib/leader.ts:362-405 | Of the replies only an empty key makes a standby send a SET NX |
| `LeaseStint.RepliesFitRequests` | src/lib/leader.ts:189-405 | In every run each awaited reply is that of a request of the awaiting kind |
| `LeaseStint.HeldTimersAreCleared` | src/lib/leader.ts:407-430 | Stopping clears exactly the timers the lock holds; losing the role does too and arms one poll |
| `LeaseStint.StoppedIsSilent` | src/lib/leader.ts:225-405 | A stopped node stays stopped, sends nothing and never leads |
| `LeaderLock.ValidateTiming` | src/lib/leader.ts:51-73 | The timing check refuses exactly non-finite or non-positive values and a renewal not shorter than the ttl, the first offending one first |
| `LeaderLock.LeaderLock.Resume` | src/lib/leader.ts:189-405 | The code after each await performs the corresponding step of the protocol, and nothing else; what that step is, `LeaseStint` says |
| `LeaderLock.LeaderLock.TimerFired` | src/lib/leader.ts:225-256 | Each timer callback performs the corresponding step of the protocol |
| `LeaderLock.LeaderLock.Demote` | src/lib/leader.ts:407-421 | Demotion clears the timers, returns to standby and schedules a poll |
| `LeaderLock.LeaderLock.Promote` | src/lib/leader.ts:212-223 | Promotion resets the strikes and arms renewal and the watchdog from the issue time |
| `BudgetSliding.SlidingDrainBound` | src/lib/budget.ts:416-487 | With reconciliation on: if no hour hands back more than a given amount, the lamports ever booked in any hour exceed `maxSolPerHour` by at most that amount, over the full history; likewise the day |
| `BudgetTumbling.TumblingWindowBound` | src/lib/budget.ts:746-756 | With reconciliation on, in every run: any half-open interval of one cycle window books at most twice the cycle spend cap and what was handed back in that very interval, and at most twice the attempt cap |
| `BudgetStraddle.TumbleBoundIsReached` | src/lib/budget.ts:746-756 | That bound is reached with nothing handed back: a send settling as its window closes and one admitted as the next opens, each of the whole cap, for every configuration whose hour and day caps allow two of them |
| `BudgetTumbling.CapsHoldWithoutReconciliation` | src/lib/budget.ts:449-487 | With reconciliation off the hour, day and twice the cycle cap bound every such interval |
| `BudgetHourCap.HourCapExactly` | src/lib/keeper-send.ts:442-454 | Whenever a few sends can use up the hour cap: it bounds what every hour books, in all runs whose reconciliations each hand back at most r, iff r is 0; and in all runs of sends that pay the fee they were estimated to pay and whose callers pass at most r as `extraLamports`, iff r is 0 |
| `BudgetHourCap.DefaultHourCapExactly` | src/lib/budget.ts:182-200 | Both equivalences for the default caps |
| `BudgetHourCap.DrainBoundIsReached` | src/lib/keeper-send.ts:442-454 | The sliding drain bound is reached: whenever k + 1 sends can use up the hour cap, they book all of it and, on top, all the rent handed back for k of them, for every rent and k |
| `BudgetRent.RentEscapesTheHourCap` | src/lib/keeper-send.ts:418-465 | How it fails: k confirmed sends within an hour book k times fee and rent while the log of the hour says k times the fee, and nothing is refused or halted |
| `BudgetRent.DefaultsLetRentEscape` | src/lib/budget.ts:182-200 | With the default caps, at any fee up to 3.6 million lamports, an hour of provisioning portfolios books more than fifteen times the hour cap |
| `BudgetLedger.CycleCapsHold` | src/lib/budget.ts:470-521 | Reservations equal the sends in flight; booked plus reserved exceeds the cycle cap by at most the positive reconciliation of this window; attempts plus reserved slots stay within the cap |
| `BudgetLedger.RoutineLeavesTheReserve` | src/lib/budget.ts:794-801 | Cranks, settled and in flight, never take more than the cap less the reserved attempts, the reservation being clamped so that one is left whenever any is allowed |
| `BudgetLedger.CriticalSlotsAreKept` | src/lib/budget.ts:449-452 | While liquidation, oracle and adl sends have used fewer than the attempts a crank must leave, no count check of the gate refuses one of theirs |
| `BudgetLog.SumsAgreeWithLogs` | src/lib/budget.ts:506-622 | After any sequence of calls each running sum is the sum of its queue, each queue is exactly the pushed events not expired at the last prune, and successes and failures count the window |
| `BudgetLog.HourWithinDay` | src/lib/budget.ts:758-766 | Without reconciliation `0 <= hourSpend <= daySpend` |
| `BudgetLog.AdjustChangesExactly` | src/lib/budget.ts:570-622 | Reconciliation changes the budget iff both costs are finite and not negative, halted or not |
| `BudgetLog.HaltedTotalsMove` | src/lib/budget.ts:566-572 | After an operator halt a reconciliation moves all three totals and the halt stays |
| `BudgetLog.GateOnHistory` | src/lib/budget.ts:392-487 | After any run the gate admits exactly when the cost, with reservations, fits the cycle, the last hour and day of everything booked and the cap of its lane, and not too few of the logged outcomes were successes; the latched kind is that of the first hard limit exceeded |
| `BudgetLog.RevertsDoNotMoveTheRate` | src/lib/budget.ts:523-539 | Two runs on one clock that differ only in reverted and dropped records see the same success rate at every corresponding moment |
| `BudgetLog.NoFailNoRateHalt` | src/lib/budget.ts:454-461 | A run in which no send failed to land never halts on the success rate |
| `BudgetLog.HaltLatches` | src/lib/budget.ts:371-391 | Once halted, no call but a resume clears the halt and every send is refused |
| `BudgetLog.CycleCapsNeverLatch` | src/lib/budget.ts:436-452 | Neither per-cycle cap ever latches a halt |
| `BudgetLog.RateFromLog` | src/lib/budget.ts:767-779 | The rate at any later moment is the share of successes among the outcomes logged in the window before it, however they were pruned, null below the sample floor; so it is below the threshold exactly when that log says so |
| `BudgetLog.LaneCapExactly` | src/lib/budget.ts:794-801 | Liquidation, oracle and adl have the whole cap; a crank has it less the reservation, none when that is not positive, and at least one attempt when any is allowed |
| `BudgetCycle.HaltedExactly` | src/lib/budget.ts:371-487 | After any calls and one more: only a resume clears a halt, only an operator or the gate sets one, and the gate sets the kind of the first hard limit the history is over |
| `BudgetCycle.CycleStep` | src/lib/budget.ts:506-622 | Every call on every budget: after one that reads the clock the window holds now; the window changes only by opening at now, first or when its time is up; its counters then start from nothing and move by that call alone |
| `BudgetCycle.DriftAddsUp` | src/lib/budget.ts:570-585 | The drift is the sum of realized less estimated over all usable reconciliations, and the samples are their number |
| `KeeperBudget.KeeperBudget.CanSpend` | src/lib/budget.ts:371-487 | The gate performs the function that `BudgetLog.GateOnHistory` and `BudgetCycle.HaltedExactly` pin down on the history |
| `KeeperBudget.KeeperBudget.RecordTx` | src/lib/budget.ts:506-540 | Settling releases the reservation, books the cost unless dropped, and logs the outcome unless reverted |
| `KeeperBudget.KeeperBudget.AdjustForRealizedCost` | src/lib/budget.ts:570-622 | Reconciliation moves each total by its own clamped delta and logs that delta |
| `KeeperBudget.KeeperBudget.PruneOld` | src/lib/budget.ts:758-773 | Pruning leaves exactly the unexpired events and keeps the sums in step |
| `KeeperSend.EverySendRecordsOnce` | src/lib/keeper-send.ts:275-406 | Over every interleaving of sends and every way out, each admitted send records exactly once, reservations equal the sends on the wire, and the cycle caps hold |
| `KeeperSend.NoReservationLeaks` | src/lib/keeper-send.ts:284-293 | When no send is on the wire nothing is reserved |
| `KeeperSend.SendsDrainWithinCaps` | src/lib/keeper-send.ts:275-406 | Any interleaving of sends, with reconciliation on, books within the hour and day caps plus what such an interval may hand back, and within twice the cycle caps plus what that very interval handed back |
| `KeeperSend.RentIsHandedBack` | src/lib/keeper-send.ts:442-454 | The estimate less the realized total is exactly the rent when the fee was estimated exactly |
| `KeeperSend.SendsCanLand` | src/lib/keeper-send.ts:384-406 | Every send on the wire can settle and release its own reservation |
| `KeeperSend.SendCall.GateAndLaunch` | src/lib/keeper-send.ts:275-383 | From the gate on, a call returns having recorded exactly one result or starts the send having recorded none; which result, `SendRecords` says path by path |
| `KeeperSend.SendCall.Land` | src/lib/keeper-send.ts:384-406 | A settled send records success, revert or failure once, whatever the finally block does |
| `SendRecords.AbortsLeaveNoTrace` | src/lib/keeper-send.ts:284-383 | In every run an admitted send that lost leadership or threw books nothing, logs no outcome, returns its reservation and counts one attempt; a dry run books its cost and one success; otherwise the send starts, reserved |
| `SendRecords.LandingsAreBooked` | src/lib/keeper-send.ts:384-406 | In every run a send that settles books its cost and returns its reservation; a confirmation logs a success, an error a failure unless its message starts with `Transaction failed:`, which logs nothing |
| `SendRecords.RefusalsLeaveNoTrace` | src/lib/keeper-send.ts:275-283 | In every run a refused send leaves the books, the reservations and the attempts as they were |
| `KeeperSend.PriorityFeeIsRoundedUp` | src/lib/keeper-send.ts:50-58 | The estimate less base fee, tip and rent is the price of the compute units in lamports, rounded up |
| `KeeperSend.RevertsSpendButDoNotFail` | src/lib/keeper-send.ts:390-400 | A send that failed is booked as spent either way; if its error says it landed and reverted, every later success rate is as if it had not been sent, and otherwise it counts as a failure to land |
| `KeeperSend.MalformedFeeLatches` | src/lib/keeper-send.ts:50-59 | A non-finite fee input is refused, starts nothing, reserves nothing and latches the breaker |
| `KeeperSend.GateMatchesCall` | src/lib/keeper-send.ts:275-383 | The interleaved model and the single call agree on the budget and on whether the send starts |
| `LiquidationGate.OneCallPerPosition` | src/services/liquidation.ts:1283-1369 | In every interleaving of polling, events, resets and evictions each position has at most one `liquidate()` in progress, and is marked in flight only while it has one |
| `LiquidationGate.StartsExactly` | src/services/liquidation.ts:1283-1329 | A position is started exactly when no call for it is in progress, it is not backing off, it was not started since the reset and the owner is below the cap of this path |
| `LiquidationGate.RefusedExactly` | src/services/liquidation.ts:1283-1329 | A refusal names the first reason the history gives: a call in progress, backoff, started this cycle, owner at cap |
| `LiquidationGate.OneStartPerCycle` | src/services/liquidation.ts:1845-1849 | Two starts for one position always have a cycle reset between them |
| `LiquidationGate.OwnerCapsHold` | src/services/liquidation.ts:1310-1327 | Between two resets each path starts at most its own cap per owner |
| `LiquidationGate.MalformedCapNeverRefuses` | src/services/liquidation.ts:903-924 | With a cap that reads as NaN there is, for every n, a run with n starts of one owner in one cycle |
| `LiquidationGate.FailuresAreCharged` | src/services/liquidation.ts:1331-1369 | For every outcome and halt state: a landed call clears its backoff, a thrown one changes nothing, and one without a signature is charged exactly when the breaker is not halted and it, or another call while it ran, attempted a transaction |
| `LiquidationGate.BackoffIsShort` | src/services/liquidation.ts:958-963 | Backoff never holds a position for more than a minute from now |
| `LiquidationGate.DelayEscalates` | src/services/liquidation.ts:1354-1362 | The cooldown is 0 after the first failure, then 5, 10, 20 and 40 seconds and a minute from the sixth on, and never shrinks |
| `LiquidationGate.LiquidationService.GatedLiquidateBegin` | src/services/liquidation.ts:1258-1331 | The gate decides in order: in flight, backing off, seen, owner at cap; only a start changes the state |
| `LiquidationGate.LiquidationService.GatedLiquidateSettle` | src/services/liquidation.ts:1332-1370 | Settling releases the position on every path and updates its backoff |
| `PortfolioHealth.EvaluateV17PortfolioHealth` | src/services/liquidation.ts:182-281 | The leg loop with its early return computes the closed form, every field of it; what its parts amount to, `PortfolioLegs` and `FlaggedExactly` say |
| `PortfolioHealth.FlaggedExactly` | src/services/liquidation.ts:194-281 | Liquidatable iff some live leg, and an unpriceable live leg, or equity <= 0, or equity below summed maintenance with lag; and what the other fields mean |
| `PortfolioLegs.LegRequirement` | src/services/liquidation.ts:236-262 | For a live, priced leg: notional is size times price rounded up; the base requirement is the maintenance rate on it rounded down, or the floor; the penalty is size times the adverse distance of a known target rounded up |
| `PortfolioLegs.OtherLegsRequireNothing` | src/services/liquidation.ts:205-238 | Inactive, empty and unpriceable legs require nothing, and live and unpriceable mean what they say |
| `PortfolioLegs.TargetLeg` | src/services/liquidation.ts:213-217 | With every live leg priced, the leg to close is the first live one, whole |
| `PortfolioLegs.UnpricedTarget` | src/services/liquidation.ts:219-233 | Otherwise it is the first live leg without a price, and notional and deficit are those of the legs before it |
| `PortfolioLegs.PriceBytes` | src/services/liquidation.ts:209-211 | The price is the eight bytes at that place of the asset slot, or the market price when they are missing or zero; the target likewise, or 0 |
| `PortfolioHealth.OrderOfLegsIsIrrelevant` | src/services/liquidation.ts:204-262 | Permuting the legs changes neither the verdict nor, when complete, notional and deficit |
| `PortfolioHealth.NoHaircutEscapes` | src/services/liquidation.ts:196-201 | Whatever part of a gain the engine realizes, what it flags is flagged here; the extra ones are exactly those whose requirement lies between the two equities |
| `PortfolioHealth.UnreadTargetHides` | src/lib/v17-risk.ts:150-173 | An unread oracle target never flags more, and hides exactly the portfolios whose equity covers the base requirement but not the penalty |
| `PortfolioHealth.UnsetTargetDoesHide` | src/lib/v17-risk.ts:124-131 | Such portfolios exist for every asset, price, lower target and long size: account bytes that differ only in a stored target read as 0, and a portfolio flagged with the one and passed with the other |
| `PortfolioHealth.TargetEffectiveLagPenalty` | src/lib/v17-risk.ts:153-173 | Positive exactly on an adverse, known target, and then size times adverse move rounded up |
| `PortfolioHealth.DustIsTheWholePortfolio` | src/services/liquidation.ts:620-629 | The dust floor skips exactly the fully priced portfolios whose total is below it; no leg at or above the floor is ever skipped |
| `RotatingCursor.EveryIndexIsReached` | src/services/liquidation.ts:358-393 | Any ceil(total / M) consecutive selections, from any stored cursor, include every index |
| `RotatingCursor.NoDuplicates` | src/services/liquidation.ts:374-381 | One selection never repeats an entry |
| `RotatingCursor.InOrder` | src/services/liquidation.ts:370-393 | A selection starts at the cursor modulo the list and goes round from there; a list that fits is taken from the front; the next cursor is where the selection ends |
| `RotatingCursor.StartIsMod` | src/services/liquidation.ts:372-372 | The double remainder is the mathematical one, for negative cursors too |
| `RotatingCursor.PortfolioScan.SelectWindow` | src/services/liquidation.ts:370-393 | The portfolio scan selects that window, advances its own market cursor and no other |
| `RotatingCursor.FraudRound.SelectMarkets` | src/services/fraud-detector.ts:244-262 | The fraud detector selects by the same rule |
| `Ranking.SortForgetsOrder` | src/services/liquidation.ts:361-368 | The scan order does not depend on the order the RPC returned |
| `Ranking.SortIsStable` | src/services/liquidation.ts:502-514 | Entries with equal keys keep their order |
| `Ranking.TopKeepsTheUrgent` | src/services/liquidation.ts:502-514 | The candidate cap keeps as many as fit, in rank order, and drops only candidates of no larger deficit |
| `RpcRecovery.HealthyExactly` | src/lib/rpc-health.ts:115-175 | A provider is healthy exactly when every evaluation so far at which its records were in breach was followed by an unbroken run of evaluations at which they met the recovery criteria, spanning the recovery window |
| `RpcRecovery.TurnsExactly` | src/lib/rpc-health.ts:146-170 | `evaluate` turns a provider healthy exactly when it was unhealthy and this evaluation completes such a run |
| `RpcRecovery.JudgedExactly` | src/lib/rpc-health.ts:115-160 | An evaluation of any history breaches iff fewer than 99% of the recent successes since the last failure are in time, or both slots are known and too far apart, or the trailing failures reach their limit; and meets the recovery criteria iff 99% are faster than the recovery limit, both slots are known and close, and no failure trails |
| `RpcRecovery.LatencyVerdict` | src/lib/rpc-health.ts:115-123 | The P99 verdict is about exactly the successes of the last window since the last failure |
| `RpcHealth.PercentileCounts` | src/lib/rpc-health.ts:212-221 | The nearest-rank percentile is within a limit iff that share of the samples is |
| `RpcHealth.RpcProviderHealth.Evaluate` | src/lib/rpc-health.ts:115-175 | An evaluation changes the provider, and reports a recovery, as the function that `RpcRecovery.JudgedExactly` and `HealthyExactly` pin down on the history |
| `RpcHealth.RpcProviderHealth.PruneWindow` | src/lib/rpc-health.ts:200-210 | The pruning loop drops exactly the expired head |
| `RpcPool.AlchemyExactly` | src/lib/rpc-pool.ts:202-245 | On the history: a disabled pool sends everything to Helius; a forced getProgramAccounts goes to Alchemy iff Alchemy is healthy by its record; any other read iff also Helius is not, and every slot ever served or probed is 0, or every one is within the slack of the last seen slot of Alchemy |
| `RpcPool.MarkIsHighest` | src/lib/rpc-pool.ts:291-299 | The mark is the highest slot ever served or probed, 0 if none, and each provider is what its own records make it |
| `RpcPool.HighWaterNeverFalls` | src/lib/rpc-pool.ts:291-299 | The mark never decreases and bounds every slot served |
| `RpcPool.FloorExactly` | src/lib/rpc-pool.ts:216-240 | For every run, every `getSlot` routed in it and whatever happens until it is answered: all answers from the last seen slot of its provider on are within the slack of everything served before iff, when it was routed, the route was Alchemy or every slot served was at most the last seen slot of Helius plus the slack |
| `RpcFailback.FailbackGoesBack` | src/lib/rpc-pool.ts:216-220 | For every configured pool, check interval and drop, a run whose every tick probes both providers before it evaluates: Alchemy serves, Helius recovers, the next read is routed to Helius and may answer lower by the drop; it keeps the floor iff the drop is within the slack |
| `RpcPool.TickCatchesUp` | src/lib/rpc-pool.ts:376-425 | Once both probes of a tick are back and evaluated, the mark covers both, the active provider is the routed one, and a failover was counted iff that is another one than before |
| `RpcPool.RpcPool.EvaluateAndTransition` | src/lib/rpc-pool.ts:415-462 | A tick raises the mark, evaluates each provider against the other's slot as read before, and counts a failover |
| `RpcPool.RpcPool.PickProvider` | src/lib/rpc-pool.ts:202-245 | The routing decision on the current state |
| `StreamQueue.FirstInFirstOut` | src/lib/account-loader.ts:433-475 | Every accepted update leaves once, in arrival order, delivered or dropped; the rest is queued within the bound with a drain on its way |
| `StreamQueue.ConservationExactly` | src/lib/account-loader.ts:437-449 | `eventsReceived = delivered + eventsDropped + queued` in all runs exactly when the bound is at least 1 |
| `StreamQueue.SettingExactly` | src/lib/account-loader.ts:235-238 | So it is for every value of the setting that is not a negative number; unset, malformed or 0 means 10000 |
| `StreamQueue.NegativeBoundMiscounts` | src/lib/account-loader.ts:235-238 | With a bound below 1 every arrival is also counted as a drop |
| `StreamQueue.BurstKeepsNewest` | src/lib/account-loader.ts:442-449 | A burst without a drain leaves exactly the newest updates |
| `StreamQueue.AccountLoader.Enqueue` | src/lib/account-loader.ts:433-451 | An update is queued behind the others, the oldest making room |
| `StreamQueue.AccountLoader.Drain` | src/lib/account-loader.ts:452-475 | The drain delivers everything waiting, oldest first |
| `StreamConnection.OneStreamOrOnItsWay` | src/lib/account-loader.ts:240-260 | If every restart waited for the old `connect()` to end: a stopped loader has no live stream, also if stopped while connecting; a running one is in exactly one of connecting, waiting, served by its one stream |
| `StreamConnection.StoppedBeginsNothing` | src/lib/account-loader.ts:291-306 | While stopped, no connection goes on to subscribe and no stream comes up |
| `StreamConnection.RestartSafeExactly` | src/lib/account-loader.ts:291-336 | After any such history, starting a stopped loader leaks no stream, whatever follows, iff no `connect()` is in progress |
| `StreamConnection.EarlyRestartsOccur` | src/lib/account-loader.ts:240-306 | Both phases of a `connect()` in progress at a restart are reachable: stopped while the snapshot is fetched, and stopped while the stream is being started |
| `StreamConnection.NeverWedges` | src/lib/account-loader.ts:406-431 | In every run, early restarts included: a running loader is connecting, waiting to reconnect or holding a live stream, says connected exactly while it holds one, and a stopped one holds none |
| `StreamConnection.EarlyRestartLeaks` | src/lib/account-loader.ts:301-336 | Restarting while a `connect()` from before the stop is still in progress, snapshotting or subscribing, leaves a stream alive after the next stop |
| `StreamConnection.AccountLoader.SubscribeSettled` | src/lib/account-loader.ts:308-338 | A subscription that comes up after a stop is torn down, otherwise the loader is connected |
| `StreamConnection.AccountLoader.OnStreamError` | src/lib/account-loader.ts:406-431 | A stream error disconnects and schedules one reconnect |
| `BackingBuckets.ReadBackingBuckets` | src/lib/v17-fee-state.ts:227-256 | Exactly two buckets per counted slot, in domain order, each read in bounds from its own bytes; the skip is never taken |
| `BackingBuckets.CountedDomainsFit` | src/lib/v17-fee-state.ts:227-241 | Every counted domain lies within the account |
| `BackingBuckets.OverwriteIsLocal` | src/lib/v17-layout.ts:285-289 | Overwriting one bucket leaves every other bucket as decoded before |
| `BackingBuckets.ExpiryRoundTrip` | src/lib/v17-fee-state.ts:242-251 | An expiry slot written to a bucket is read back from it, all else in it unchanged |
| `BackingBuckets.BucketRoundTrip` | src/lib/v17-fee-state.ts:227-256 | A bucket laid down field by field at its address is read back as it was, whatever lies around it |
| `BackingBuckets.GroupBytes` | src/lib/v17-fee-state.ts:109-141 | The header fields are those bytes of the market group, and the slot count is what the rest of the account holds |
| `BackingBuckets.FoundExactly` | src/lib/v17-fee-state.ts:282-312 | Both filters, completely: fresh and due by either slot; fresh, due by neither and by one of them within the horizon |
| `BackingBuckets.ExpirableOrLapsingNotBoth` | src/lib/v17-fee-state.ts:282-312 | No bucket is both expirable and lapsing soon |
| `BackingBuckets.ExpirableForGood` | src/lib/v17-fee-state.ts:282-291 | An unchanged expirable bucket stays expirable as either slot grows |
| `BackingBuckets.LapsingBecomesExpirable` | src/lib/v17-fee-state.ts:299-312 | A lapsing bucket is expirable once a slot has advanced by the horizon |
| `BackingBuckets.EngineAvailableAtoms` | src/lib/v17-fee-state.ts:155-163 | The two saturating subtractions are one, clamped at zero |
| `MarketLayout.AssertV17LayoutGeneration` | src/lib/v17-layout.ts:302-344 | The boot assertion throws exactly when the SDK does not match the derived layout |
| `MarketLayout.BucketsDisjoint` | src/lib/v17-layout.ts:269-289 | Buckets of different domains occupy disjoint bytes |
| `MarketLayout.BucketInSlot` | src/lib/v17-layout.ts:269-289 | Each bucket lies inside its own asset slot |
| `MarketBytes.ReadU64LE` | src/lib/v17-risk.ts:76-85 | The byte loop reads the little-endian value, or throws exactly when out of bounds |
| `MarketBytes.ReadU128LE` | src/lib/v17-risk.ts:87-91 | The two halves make the 16-byte value |
| `MarketBytes.WriteRead` | src/lib/v17-risk.ts:76-91 | A field written and read back is the value written |
| `CrankWatchdog.ExitsExactly` | src/services/crank.ts:2233-2278 | The process exits exactly at a tick that finds a cycle longer in its phase than ten intervals, four minutes and, discovering, four minutes a program, when a tick more than 30 s earlier had found the same phase of the same cycle so too |
| `CrankWatchdog.OneCycleAtATime` | src/services/crank.ts:2280-2330 | No two cycles are ever in progress, and with none in progress the watchdog is disarmed |
| `CrankWatchdog.SettledCycleDisarms` | src/services/crank.ts:2324-2330 | A settled crank pass disarms: the next tick starts a new cycle and cannot exit |
| `CrankWatchdog.CrankService.Tick` | src/services/crank.ts:2233-2289 | The interval callback watches, arms, exits or begins, as the function the theorems are about |
| `CrankWatchdog.CrankService.DiscoverySettled` | src/services/crank.ts:2295-2303 | Discovery settling re-anchors the budget and disarms, and ends the cycle on failure |

## Left out

- Graceful `stop()` of a leader (`src/lib/leader.ts:168-187`): it deletes the key whoever owns it and keeps the role until the reply; stopping a standby or a starting node is modelled.
- Restarting a stopped lock, handlers that throw, and clocks that differ between a node and Redis; time is one global integer in milliseconds.
- `beginCycle`, which no production path calls; the theorems speak of the clock-driven window.
- Halt-file persistence, alert, metric and logging hooks, debug output.
- BudgetLedger.CycleCapsHold: money is whole lamports, non-finite cost being a case of its own; the clock is positive and does not go back, 0 being the code's mark for an unopened window.
- BudgetSliding.SlidingDrainBound: what reconciliation hands back is a parameter of the bound; no figure for it follows from the code.
- BudgetHourCap.HourCapExactly: configurations in which no sends, one a cycle window, add up to the hour cap within an hour are not covered. A receipt whose fee is below its estimate hands back the difference and counts as handing back.
- The lane argument of `recordTx` and `adjustForRealizedCost` is not used by the code and is not a parameter here.
- How `estimateCost` and `sendWithRetryKeeper` reach their results: any result at any time is allowed. Retries inside one send are one send.
- KeeperSend.EverySendRecordsOnce: sampling and fetching of realized costs appear only as reconciliation with arbitrary amounts at arbitrary times.
- The pruning of the budget is three methods, one per queue, where the source has three loops in one.
- LiquidationGate.BackoffIsShort: the LRU bound on the backoff map is an eviction that may happen at any time.
- The pre-submit re-verification, drift guard and transaction building inside `liquidate()`, and the legacy v12 scan.
- PortfolioHealth.NoHaircutEscapes: the engine is represented by the formulas the keeper quotes; the engine itself is not part of this model.
- Parsing of portfolios and PDA derivation: a portfolio is its parsed fields. Market accounts are read as bytes.
- RotatingCursor.EveryIndexIsReached: the list stays the same from cycle to cycle; nothing is claimed while it changes.
- RpcRecovery.HealthyExactly: the clock does not go back; latencies and slots are integers; reason strings and the P50/P99 gauges are left out.
- RpcPool.FloorExactly: what a provider answers below its own last seen slot is not bounded; forced `getProgramAccounts` bypasses the floor by design.
- StreamQueue.FirstInFirstOut: what listeners do is not modelled; one that throws counts as called. A logger that throws inside the drain is left out.
- The account cache, the slot tracker and the reconnect delays. Queue and connection of the loader are two classes here, since they share only `running`.
- StreamConnection.OneStreamOrOnItsWay: speaks of histories in which every restart waited for the earlier `connect()` to end; RestartSafeExactly, EarlyRestartLeaks and NeverWedges say what happens otherwise.
- StreamConnection.RestartSafeExactly: assigning the stream handle and the code after `adapter.start()` run in one stretch of microtasks and are one step; only a live subscription reports errors.
- LiquidationGate.FailuresAreCharged: which of several overlapping calls made an attempt is not recoverable from the shared counter; the statement says when the charge falls.
- BackingBuckets.ReadBackingBuckets: SDK lengths are parameters held to what the boot assertion demands.
- CrankWatchdog.ExitsExactly: the clock is positive, 0 being the code's mark for a disarmed watchdog; the two clock readings of one callback are one instant; whether a cycle needs discovery or has markets is an input.
- `processBatched`, the eviction of missing markets in `discover`, market selection for fee cranks, oracle fetching and the rest of the crank and fraud services.
- All RPC, HTTP and Redis transport, SDK encoders, environment guards, endpoints, metrics and wiring.
