/** What any call makes of the open cycle and of the latch, and what the drift counters add up to. */
module BudgetCycle {
  import opened Prelude
  import opened Events
  import opened BudgetState
  import opened BudgetLog

  // ---------- the cycle window ----------

  /**
   The window after a call: one that reads the clock leaves a window that `now` falls in, and
   the window only ever changes by opening at `now`, either the first or because its time is up.
   */
  ghost predicate Tumbles(c: Config, start: int, now: int, timed: bool, start': int) {
    && (timed ==> start' != 0 && now - start' < c.cycleWindowMs)
    && (start' != start ==> timed && start' == now && (start == 0 || now - start >= c.cycleWindowMs))
  }

  /** What a call adds to the counters of the window it finds open. */
  ghost predicate Counts(call: Call, spend: int, attempts: int, spend': int, attempts': int) {
    match call.what
    case RecordTx(amount, result) =>
      if !Ok(amount) then spend' == spend && attempts' == attempts
      else spend' == spend + (if result == Drop then 0 else amount.v) && attempts' == attempts + 1
    case Adjust(estimated, realized) =>
      && attempts' == attempts
      && spend' == if Ok(estimated) && Ok(realized) then Max(0, spend + realized.v - estimated.v) else spend
    case _ => spend' == spend && attempts' == attempts
  }

  /** Every call, on every budget: the window tumbles, and its counters start from nothing when it does. */
  lemma CycleStep(c: Config, b: Budget, call: Call, b': Budget)
    requires c.cycleWindowMs > 0 && call.now > 0 && b' == Perform(c, b, call)
    requires b.cycleStartMs == 0 ==> b.cycleSpend == 0 && b.cycleTxCount == 0
    ensures Tumbles(c, b.cycleStartMs, call.now, Prunes(b, call), b'.cycleStartMs)
    ensures if b'.cycleStartMs == b.cycleStartMs
            then Counts(call, b.cycleSpend, b.cycleTxCount, b'.cycleSpend, b'.cycleTxCount)
            else Counts(call, 0, 0, b'.cycleSpend, b'.cycleTxCount)
  {
    match call.what
    case CanSpend(cost, lane) => GateCycle(c, b, cost, lane, call.now);
    case RecordTx(amount, result) => RecordCycle(c, b, amount, result, call.now);
    case Adjust(estimated, realized) => AdjustCycle(c, b, estimated, realized, call.now);
    case _ =>
  }

  /** The open window and its counters. */
  predicate SameCycle(b: Budget, r: Budget) {
    b.cycleStartMs == r.cycleStartMs && b.cycleSpend == r.cycleSpend && b.cycleTxCount == r.cycleTxCount
  }

  lemma RecordCycle(c: Config, b: Budget, amount: Num, result: TxResult, now: int)
    ensures var b', r := b.RecordTx(c, amount, result, now), b.Roll(c, now);
            if !Ok(amount) then b' == b
            else SameCycle(b', r.(cycleSpend := r.cycleSpend + (if result == Drop then 0 else amount.v),
                                  cycleTxCount := r.cycleTxCount + 1))
  {
  }

  lemma AdjustCycle(c: Config, b: Budget, estimated: Num, realized: Num, now: int)
    ensures var b', r := b.Adjust(c, estimated, realized, now), b.Roll(c, now);
            if !Ok(estimated) || !Ok(realized) then b' == b
            else SameCycle(b', r.(cycleSpend := Max(0, r.cycleSpend + realized.v - estimated.v)))
  {
  }

  lemma GateCycle(c: Config, b: Budget, cost: Num, lane: TxType, now: int)
    ensures var b', r := b.CanSpend(c, cost, lane, now).0,
                         if b.halted.None? && Ok(cost) then b.Roll(c, now) else b;
            SameCycle(b', r)
  {
  }

  // ---------- the latch ----------

  /** What a call makes of the latch, on the full history. */
  ghost predicate Latches(c: Config, l: Logged, call: Call, halted: Option<HaltKind>) {
    match call.what
    case Resume => halted == None
    case HaltManually => halted == if l.b.halted.Some? then l.b.halted else Some(Operator)
    case CanSpend(cost, lane) =>
      halted ==
      if l.b.halted.Some? then l.b.halted
      else if !Ok(cost) then Some(NonFiniteCost)
      else
        LatchOf(Judge(c, l.b.Roll(c, call.now).cycleSpend, l.b.Roll(c, call.now).cycleTxCount,
                      Recent(l.hourLog, HOUR_MS, call.now), Recent(l.dayLog, DAY_MS, call.now),
                      RateLow(c, l.txLog, call.now), cost.v, lane))
    case _ => halted == l.b.halted
  }

  /**
   After any calls, one more: only a resume clears a halt, only an operator or the gate sets one,
   and the gate sets the kind of the first hard limit the history is over.
   */
  lemma HaltedExactly(c: Config, calls: seq<Call>, call: Call)
    requires Clocked(calls) && LastNow(calls) <= call.now
    ensures Latches(c, Run(c, calls), call, Run(c, calls + [call]).b.halted)
  {
    assert (calls + [call])[..|calls|] == calls;
    var b := Run(c, calls).b;
    match call.what
    case CanSpend(cost, lane) =>
      if b.halted.None? && Ok(cost) { GateOnHistory(c, calls, cost.v, lane, call.now); }
    case _ => NotAGate(c, b, call);
  }

  lemma NotAGate(c: Config, b: Budget, call: Call)
    requires !call.what.CanSpend?
    ensures Perform(c, b, call).halted ==
            if call.what.Resume? then None
            else if call.what.HaltManually? && b.halted.None? then Some(Operator)
            else b.halted
  {
  }

  // ---------- drift ----------

  /** The realized cost less the estimate, over every reconciliation of two usable costs. */
  function Drift(calls: seq<Call>): int {
    if calls == [] then 0
    else
      var what := calls[|calls| - 1].what;
      Drift(calls[..|calls| - 1]) +
      if what.Adjust? && Ok(what.estimated) && Ok(what.realized) then what.realized.v - what.estimated.v else 0
  }

  function Samples(calls: seq<Call>): nat {
    if calls == [] then 0
    else
      var what := calls[|calls| - 1].what;
      Samples(calls[..|calls| - 1]) + if what.Adjust? && Ok(what.estimated) && Ok(what.realized) then 1 else 0
  }

  lemma {:induction false} DriftAddsUp(c: Config, calls: seq<Call>)
    ensures Run(c, calls).b.drift == Drift(calls) && Run(c, calls).b.driftSamples == Samples(calls)
  {
    if calls != [] {
      var front, call := calls[..|calls| - 1], calls[|calls| - 1];
      DriftAddsUp(c, front);
      DriftStep(c, Run(c, front).b, call);
    }
  }

  lemma DriftStep(c: Config, b: Budget, call: Call)
    ensures var b', what := Perform(c, b, call), call.what;
            if what.Adjust? && Ok(what.estimated) && Ok(what.realized)
            then b'.drift == b.drift + what.realized.v - what.estimated.v && b'.driftSamples == b.driftSamples + 1
            else b'.drift == b.drift && b'.driftSamples == b.driftSamples
  {
  }
}
