/**
 `KeeperBudget` as the object it is. Each method is proved to take the fields
 from one state of module BudgetState to the next; the clock value a method reads is
 its parameter `nowMs`.
 */
module KeeperBudget {
  import opened Prelude
  import opened Events
  import opened BudgetState

  class KeeperBudget {
    const config: Config

    var cycleSpend: int
    var cycleTxCount: nat
    var cycleStartMs: int
    var hourEvents: seq<Stamped<int>>
    var hourSpendSum: int
    var dayEvents: seq<Stamped<int>>
    var daySpendSum: int
    var txWindow: seq<Stamped<bool>>
    var txWindowSuccesses: int
    var txWindowFailures: int
    var reservedLamports: int
    var reservedTxCount: int
    var haltKind: Option<HaltKind>
    var realizedCostDriftLamports: int
    var realizedCostSamples: nat

    function View(): Budget
      reads this
    {
      Budget(cycleSpend, cycleTxCount, cycleStartMs, hourEvents, hourSpendSum, dayEvents, daySpendSum,
             txWindow, txWindowSuccesses, txWindowFailures, reservedLamports, reservedTxCount,
             haltKind, realizedCostDriftLamports, realizedCostSamples)
    }

    constructor (config: Config)
      ensures View() == Fresh && this.config == config
    {
      this.config := config;
      cycleSpend, cycleTxCount, cycleStartMs := 0, 0, 0;
      hourEvents, hourSpendSum, dayEvents, daySpendSum := [], 0, [], 0;
      txWindow, txWindowSuccesses, txWindowFailures := [], 0, 0;
      reservedLamports, reservedTxCount, haltKind := 0, 0, None;
      realizedCostDriftLamports, realizedCostSamples := 0, 0;
    }

    method Halt(kind: HaltKind)
      modifies `haltKind
      ensures View() == old(View()).Halt(kind)
    {
      if haltKind.Some? { return; }
      haltKind := Some(kind);
    }

    method Resume()
      modifies `haltKind
      ensures View() == old(View()).Resume()
    {
      if haltKind.None? { return; }
      haltKind := None;
    }

    method RollCycleIfElapsed(nowMs: int)
      modifies `cycleSpend, `cycleTxCount, `cycleStartMs
      ensures View() == old(View()).Roll(config, nowMs)
    {
      if cycleStartMs == 0 {
        cycleStartMs := nowMs;
        return;
      }
      if nowMs - cycleStartMs >= config.cycleWindowMs {
        cycleSpend := 0;
        cycleTxCount := 0;
        cycleStartMs := nowMs;
      }
    }

    method PruneHour(hourCutoff: int)
      modifies `hourEvents, `hourSpendSum
      ensures hourEvents == DropExpired(old(hourEvents), hourCutoff)
      ensures hourSpendSum == old(hourSpendSum) - (Sum(old(hourEvents)) - Sum(hourEvents))
    {
      while |hourEvents| > 0 && hourEvents[0].ts < hourCutoff
        invariant DropExpired(hourEvents, hourCutoff) == DropExpired(old(hourEvents), hourCutoff)
        invariant hourSpendSum == old(hourSpendSum) - (Sum(old(hourEvents)) - Sum(hourEvents))
        decreases |hourEvents|
      {
        hourSpendSum := hourSpendSum - hourEvents[0].what;
        hourEvents := hourEvents[1..];
      }
    }

    method PruneDay(dayCutoff: int)
      modifies `dayEvents, `daySpendSum
      ensures dayEvents == DropExpired(old(dayEvents), dayCutoff)
      ensures daySpendSum == old(daySpendSum) - (Sum(old(dayEvents)) - Sum(dayEvents))
    {
      while |dayEvents| > 0 && dayEvents[0].ts < dayCutoff
        invariant DropExpired(dayEvents, dayCutoff) == DropExpired(old(dayEvents), dayCutoff)
        invariant daySpendSum == old(daySpendSum) - (Sum(old(dayEvents)) - Sum(dayEvents))
        decreases |dayEvents|
      {
        daySpendSum := daySpendSum - dayEvents[0].what;
        dayEvents := dayEvents[1..];
      }
    }

    method PruneWindow(windowCutoff: int)
      modifies `txWindow, `txWindowSuccesses, `txWindowFailures
      ensures txWindow == DropExpired(old(txWindow), windowCutoff)
      ensures txWindowSuccesses
           == old(txWindowSuccesses) - (Count(old(txWindow), true) - Count(txWindow, true))
      ensures txWindowFailures
           == old(txWindowFailures) - (Count(old(txWindow), false) - Count(txWindow, false))
    {
      while |txWindow| > 0 && txWindow[0].ts < windowCutoff
        invariant DropExpired(txWindow, windowCutoff) == DropExpired(old(txWindow), windowCutoff)
        invariant txWindowSuccesses
               == old(txWindowSuccesses) - (Count(old(txWindow), true) - Count(txWindow, true))
        invariant txWindowFailures
               == old(txWindowFailures) - (Count(old(txWindow), false) - Count(txWindow, false))
        decreases |txWindow|
      {
        var evicted := txWindow[0];
        txWindow := txWindow[1..];
        if evicted.what {
          txWindowSuccesses := txWindowSuccesses - 1;
        } else {
          txWindowFailures := txWindowFailures - 1;
        }
      }
    }

    /** The three pruning loops, one after the other. */
    method PruneOld(nowMs: int)
      modifies `hourEvents, `hourSpendSum, `dayEvents, `daySpendSum,
               `txWindow, `txWindowSuccesses, `txWindowFailures
      ensures View() == old(View()).Prune(config, nowMs)
    {
      PruneHour(nowMs - HOUR_MS);
      PruneDay(nowMs - DAY_MS);
      PruneWindow(nowMs - config.txSuccessRateWindow);
    }

    method ComputeSuccessRate() returns (rate: Rate)
      ensures rate == View().SuccessRate(config)
    {
      var total := |txWindow|;
      if total < config.txSuccessRateMinSamples {
        return TooFewSamples;
      }
      rate := if total == 0 then NotANumber else Value(txWindowSuccesses as real / total as real);
    }

    method CanSpend(lamports: Num, txType: TxType, nowMs: int) returns (admitted: bool)
      modifies this
      ensures (View(), admitted) == old(View()).CanSpend(config, lamports, txType, nowMs)
    {
      if haltKind.Some? {
        return false;
      }
      if lamports.NonFinite? || lamports.v < 0 {
        Halt(NonFiniteCost);
        return false;
      }
      RollCycleIfElapsed(nowMs);
      PruneOld(nowMs);
      assert View() == old(View()).Roll(config, nowMs).Prune(config, nowMs);
      var cost := lamports.v;
      if cycleSpend + cost > config.maxSolPerCycle {
        return false;
      }
      if hourSpendSum + cost > config.maxSolPerHour {
        Halt(HourSpendCap);
        return false;
      }
      if daySpendSum + cost > config.maxSolPerDay {
        Halt(DaySpendCap);
        return false;
      }
      var effectiveTxCap := config.EffectiveTxCap(txType);
      if cycleTxCount + 1 > effectiveTxCap {
        return false;
      }
      var rate := ComputeSuccessRate();
      if Below(rate, config.txSuccessRateThreshold) {
        Halt(TxSuccessRate);
        return false;
      }
      if || cycleSpend + reservedLamports + cost > config.maxSolPerCycle
         || hourSpendSum + reservedLamports + cost > config.maxSolPerHour
         || daySpendSum + reservedLamports + cost > config.maxSolPerDay
         || cycleTxCount + reservedTxCount + 1 > effectiveTxCap
      {
        return false;
      }
      reservedLamports := reservedLamports + cost;
      reservedTxCount := reservedTxCount + 1;
      return true;
    }

    method RecordTx(lamports: Num, result: TxResult, nowMs: int)
      modifies this
      ensures View() == old(View()).RecordTx(config, lamports, result, nowMs)
    {
      if lamports.NonFinite? || lamports.v < 0 {
        return;
      }
      RollCycleIfElapsed(nowMs);
      reservedLamports := Max(0, reservedLamports - lamports.v);
      reservedTxCount := Max(0, reservedTxCount - 1);
      cycleTxCount := cycleTxCount + 1;
      assert View() == old(View()).Roll(config, nowMs).Release(lamports.v);
      BookSettled(lamports.v, result, nowMs);
      PruneOld(nowMs);
    }

    /** The part of recordTx that a drop skips. */
    method BookSettled(lamports: int, result: TxResult, nowMs: int)
      modifies `cycleSpend, `hourEvents, `hourSpendSum, `dayEvents, `daySpendSum,
               `txWindow, `txWindowSuccesses, `txWindowFailures
      ensures View() == old(View()).Book(lamports, result, nowMs)
    {
      if result != Drop {
        cycleSpend := cycleSpend + lamports;
        hourEvents := hourEvents + [Stamped(nowMs, lamports)];
        hourSpendSum := hourSpendSum + lamports;
        dayEvents := dayEvents + [Stamped(nowMs, lamports)];
        daySpendSum := daySpendSum + lamports;
        if result == Success || result == Fail {
          var success := result == Success;
          txWindow := txWindow + [Stamped(nowMs, success)];
          if success {
            txWindowSuccesses := txWindowSuccesses + 1;
          } else {
            txWindowFailures := txWindowFailures + 1;
          }
        }
      }
    }

    method AdjustForRealizedCost(estimated: Num, realized: Num, nowMs: int)
      modifies this
      ensures View() == old(View()).Adjust(config, estimated, realized, nowMs)
    {
      if estimated.NonFinite? || estimated.v < 0 { return; }
      if realized.NonFinite? || realized.v < 0 { return; }
      var delta := realized.v - estimated.v;
      realizedCostDriftLamports := realizedCostDriftLamports + delta;
      realizedCostSamples := realizedCostSamples + 1;
      RollCycleIfElapsed(nowMs);
      ApplyDelta(delta, nowMs);
      PruneOld(nowMs);
    }

    /** The clamped adjustment of the running totals, each backed by an event of its own. */
    method ApplyDelta(delta: int, nowMs: int)
      modifies `cycleSpend, `hourEvents, `hourSpendSum, `dayEvents, `daySpendSum
      ensures View() == old(View()).ApplyDelta(delta, nowMs)
    {
      cycleSpend := Max(0, cycleSpend + delta);
      var hourApplied := Max(0, hourSpendSum + delta) - hourSpendSum;
      if hourApplied != 0 {
        hourSpendSum := hourSpendSum + hourApplied;
        hourEvents := hourEvents + [Stamped(nowMs, hourApplied)];
      }
      var dayApplied := Max(0, daySpendSum + delta) - daySpendSum;
      if dayApplied != 0 {
        daySpendSum := daySpendSum + dayApplied;
        dayEvents := dayEvents + [Stamped(nowMs, dayApplied)];
      }
    }

    /** The snapshot `getStats` returns is the state it leaves behind. */
    method GetStats(nowMs: int) returns (stats: Budget)
      modifies this
      ensures View() == old(View()).Stats(config, nowMs) && stats == View()
    {
      RollCycleIfElapsed(nowMs);
      PruneOld(nowMs);
      stats := View();
    }
  }
}
