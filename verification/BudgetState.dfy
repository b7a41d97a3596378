/** The state of `KeeperBudget` and what each of its methods does to it. */
module BudgetState {
  import opened Prelude
  import opened Events

  const HOUR_MS := 3_600_000
  const DAY_MS := 86_400_000

  datatype TxType = Crank | Liquidation | Oracle | Adl

  datatype TxResult = Success | Fail | Reverted | Drop

  datatype HaltKind =
    | CycleSpendCap | HourSpendCap | DaySpendCap | CycleTxCountCap
    | TxSuccessRate | NonFiniteCost | Operator

  datatype Config = Config(
    maxSolPerCycle: nat,
    maxSolPerHour: nat,
    maxSolPerDay: nat,
    maxTxPerCycle: nat,
    reservedCriticalTxPerCycle: int,
    cycleWindowMs: nat,
    txSuccessRateWindow: nat,
    txSuccessRateThreshold: real,
    txSuccessRateMinSamples: nat)
  {
    /** The slots a routine lane may not use: clamped to [0, maxTxPerCycle - 1]. */
    function Reserved(): nat {
      Min(Max(0, reservedCriticalTxPerCycle), Max(0, maxTxPerCycle - 1))
    }

    function EffectiveTxCap(lane: TxType): nat {
      if IsCritical(lane) then maxTxPerCycle else maxTxPerCycle - Reserved()
    }
  }

  predicate IsCritical(lane: TxType) {
    lane != Crank
  }

  /** `successes / total`: null below the sample floor, NaN for 0 / 0. */
  datatype Rate = TooFewSamples | NotANumber | Value(r: real)

  predicate Below(rate: Rate, threshold: real) {
    rate.Value? && rate.r < threshold
  }

  datatype Budget = Budget(
    cycleSpend: int,
    cycleTxCount: nat,
    cycleStartMs: int,
    hourEvents: seq<Stamped<int>>,
    hourSpendSum: int,
    dayEvents: seq<Stamped<int>>,
    daySpendSum: int,
    txWindow: seq<Stamped<bool>>,
    successes: int,
    failures: int,
    reservedLamports: int,
    reservedTxCount: int,
    halted: Option<HaltKind>,
    drift: int,
    driftSamples: nat)
  {
    function Roll(c: Config, now: int): Budget {
      if cycleStartMs == 0 then this.(cycleStartMs := now)
      else if now - cycleStartMs >= c.cycleWindowMs then
        this.(cycleSpend := 0, cycleTxCount := 0, cycleStartMs := now)
      else this
    }

    function Prune(c: Config, now: int): Budget {
      var hour := DropExpired(hourEvents, now - HOUR_MS);
      var day := DropExpired(dayEvents, now - DAY_MS);
      var window := DropExpired(txWindow, now - c.txSuccessRateWindow);
      this.(hourEvents := hour, hourSpendSum := hourSpendSum - (Sum(hourEvents) - Sum(hour)),
            dayEvents := day, daySpendSum := daySpendSum - (Sum(dayEvents) - Sum(day)),
            txWindow := window,
            successes := successes - (Count(txWindow, true) - Count(window, true)),
            failures := failures - (Count(txWindow, false) - Count(window, false)))
    }

    function SuccessRate(c: Config): Rate {
      var total := |txWindow|;
      if total < c.txSuccessRateMinSamples then TooFewSamples
      else if total == 0 then NotANumber
      else Value(successes as real / total as real)
    }

    function Halt(kind: HaltKind): Budget {
      if halted.Some? then this else this.(halted := Some(kind))
    }

    function Resume(): Budget {
      this.(halted := None)
    }

    predicate FitsWithReservations(c: Config, lamports: int, lane: TxType) {
      && cycleSpend + reservedLamports + lamports <= c.maxSolPerCycle
      && hourSpendSum + reservedLamports + lamports <= c.maxSolPerHour
      && daySpendSum + reservedLamports + lamports <= c.maxSolPerDay
      && cycleTxCount + reservedTxCount + 1 <= c.EffectiveTxCap(lane)
    }

    /** The gate: the new state, and whether the send was admitted (and reserved). */
    function CanSpend(c: Config, cost: Num, lane: TxType, now: int): (Budget, bool) {
      if halted.Some? then (this, false)
      else if cost.NonFinite? || cost.v < 0 then (Halt(NonFiniteCost), false)
      else
        var b := Roll(c, now).Prune(c, now);
        if b.cycleSpend + cost.v > c.maxSolPerCycle then (b, false)
        else if b.hourSpendSum + cost.v > c.maxSolPerHour then (b.Halt(HourSpendCap), false)
        else if b.daySpendSum + cost.v > c.maxSolPerDay then (b.Halt(DaySpendCap), false)
        else if b.cycleTxCount + 1 > c.EffectiveTxCap(lane) then (b, false)
        else if Below(b.SuccessRate(c), c.txSuccessRateThreshold) then (b.Halt(TxSuccessRate), false)
        else if !b.FitsWithReservations(c, cost.v, lane) then (b, false)
        else (b.(reservedLamports := b.reservedLamports + cost.v,
                 reservedTxCount := b.reservedTxCount + 1), true)
    }

    function Book(lamports: int, result: TxResult, now: int): Budget {
      if result == Drop then this
      else
        var b := this.(cycleSpend := cycleSpend + lamports,
                       hourEvents := hourEvents + [Stamped(now, lamports)],
                       hourSpendSum := hourSpendSum + lamports,
                       dayEvents := dayEvents + [Stamped(now, lamports)],
                       daySpendSum := daySpendSum + lamports);
        match result
        case Success => b.(txWindow := txWindow + [Stamped(now, true)], successes := successes + 1)
        case Fail => b.(txWindow := txWindow + [Stamped(now, false)], failures := failures + 1)
        case _ => b
    }

    /** One attempt settles: its reservation is returned, clamped at zero. */
    function Release(lamports: int): Budget {
      this.(reservedLamports := Max(0, reservedLamports - lamports),
            reservedTxCount := Max(0, reservedTxCount - 1),
            cycleTxCount := cycleTxCount + 1)
    }

    function RecordTx(c: Config, cost: Num, result: TxResult, now: int): Budget {
      if cost.NonFinite? || cost.v < 0 then this
      else
        Roll(c, now).Release(cost.v).Book(cost.v, result, now).Prune(c, now)
    }

    function ApplyDelta(delta: int, now: int): Budget {
      var hourApplied := Max(0, hourSpendSum + delta) - hourSpendSum;
      var dayApplied := Max(0, daySpendSum + delta) - daySpendSum;
      this.(cycleSpend := Max(0, cycleSpend + delta),
            hourSpendSum := hourSpendSum + hourApplied,
            hourEvents := if hourApplied == 0 then hourEvents else hourEvents + [Stamped(now, hourApplied)],
            daySpendSum := daySpendSum + dayApplied,
            dayEvents := if dayApplied == 0 then dayEvents else dayEvents + [Stamped(now, dayApplied)])
    }

    function Adjust(c: Config, estimated: Num, realized: Num, now: int): Budget {
      if estimated.NonFinite? || estimated.v < 0 || realized.NonFinite? || realized.v < 0 then this
      else
        var delta := realized.v - estimated.v;
        this.(drift := drift + delta, driftSamples := driftSamples + 1)
          .Roll(c, now).ApplyDelta(delta, now).Prune(c, now)
    }

    function Stats(c: Config, now: int): Budget {
      Roll(c, now).Prune(c, now)
    }
  }

  const Fresh: Budget :=
    Budget(0, 0, 0, [], 0, [], 0, [], 0, 0, 0, 0, None, 0, 0)
}
