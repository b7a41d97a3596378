/**
 Arbitrary sequences of budget calls, with the complete log of what was pushed
 to each queue: what the pruned queues and the cached sums mean.
 */
module BudgetLog {
  import opened Prelude
  import opened Events
  import opened BudgetState

  datatype What =
    | CanSpend(cost: Num, lane: TxType)
    | RecordTx(amount: Num, result: TxResult)
    | Adjust(estimated: Num, realized: Num)
    | GetStats
    | HaltManually
    | Resume

  datatype Call = Call(now: int, what: What)

  function Perform(c: Config, b: Budget, call: Call): Budget {
    match call.what
    case CanSpend(cost, lane) => b.CanSpend(c, cost, lane, call.now).0
    case RecordTx(amount, result) => b.RecordTx(c, amount, result, call.now)
    case Adjust(estimated, realized) => b.Adjust(c, estimated, realized, call.now)
    case GetStats => b.Stats(c, call.now)
    case HaltManually => b.Halt(Operator)
    case Resume => b.Resume()
  }

  predicate Ok(n: Num) {
    n.Finite? && n.v >= 0
  }

  /** Whether a call reads the clock and prunes. */
  predicate Prunes(b: Budget, call: Call) {
    match call.what
    case CanSpend(cost, _) => b.halted.None? && Ok(cost)
    case RecordTx(amount, _) => Ok(amount)
    case Adjust(estimated, realized) => Ok(estimated) && Ok(realized)
    case GetStats => true
    case _ => false
  }

  /** The spend event a call pushes to a queue whose running sum is `sum`. */
  function SpendPushed(sum: int, call: Call): seq<Stamped<int>> {
    match call.what
    case RecordTx(amount, result) =>
      if Ok(amount) && result != Drop then [Stamped(call.now, amount.v)] else []
    case Adjust(estimated, realized) =>
      if !Ok(estimated) || !Ok(realized) then []
      else
        var applied := Max(0, sum + realized.v - estimated.v) - sum;
        if applied == 0 then [] else [Stamped(call.now, applied)]
    case _ => []
  }

  function OutcomePushed(call: Call): seq<Stamped<bool>> {
    match call.what
    case RecordTx(amount, result) =>
      if Ok(amount) && (result == Success || result == Fail) then [Stamped(call.now, result == Success)] else []
    case _ => []
  }

  datatype Logged = Logged(
    b: Budget,
    hourLog: seq<Stamped<int>>,
    dayLog: seq<Stamped<int>>,
    txLog: seq<Stamped<bool>>,
    prunedAt: int)

  function Step(c: Config, l: Logged, call: Call): Logged {
    Logged(Perform(c, l.b, call),
           l.hourLog + SpendPushed(l.b.hourSpendSum, call),
           l.dayLog + SpendPushed(l.b.daySpendSum, call),
           l.txLog + OutcomePushed(call),
           NextPrune(l, call))
  }

  function NextPrune(l: Logged, call: Call): int {
    if Prunes(l.b, call) then call.now else l.prunedAt
  }

  function RunFrom(c: Config, l: Logged, calls: seq<Call>): Logged {
    if calls == [] then l
    else Step(c, RunFrom(c, l, calls[..|calls| - 1]), calls[|calls| - 1])
  }

  const Start: Logged := Logged(Fresh, [], [], [], 0)

  function Run(c: Config, calls: seq<Call>): Logged {
    RunFrom(c, Start, calls)
  }

  /** A monotone clock that reads more than 0. */
  ghost predicate Clocked(calls: seq<Call>) {
    && (forall i :: 0 <= i < |calls| ==> calls[i].now > 0)
    && (forall i, j :: 0 <= i < j < |calls| ==> calls[i].now <= calls[j].now)
  }

  function LastNow(calls: seq<Call>): int {
    if calls == [] then 0 else calls[|calls| - 1].now
  }

  // ---------- what one call does to the queues ----------

  /** Events are pushed, then the expired head is shifted off the queue and out of its sum. */
  predicate Moved(q: seq<Stamped<int>>, sum: int, pushed: seq<Stamped<int>>, cutoff: int,
                  q': seq<Stamped<int>>, sum': int)
  {
    && q' == DropExpired(q + pushed, cutoff)
    && sum' == sum + Sum(pushed) - (Sum(q + pushed) - Sum(q'))
  }

  predicate WindowMoved(q: seq<Stamped<bool>>, n: int, pushed: seq<Stamped<bool>>, cutoff: int, v: bool,
                        q': seq<Stamped<bool>>, n': int)
  {
    && q' == DropExpired(q + pushed, cutoff)
    && n' == n + Count(pushed, v) - (Count(q + pushed, v) - Count(q', v))
  }

  predicate SameQueues(b: Budget, b': Budget) {
    && b'.hourEvents == b.hourEvents && b'.hourSpendSum == b.hourSpendSum
    && b'.dayEvents == b.dayEvents && b'.daySpendSum == b.daySpendSum
    && b'.txWindow == b.txWindow && b'.successes == b.successes && b'.failures == b.failures
  }

  predicate Effect(c: Config, b: Budget, call: Call, b': Budget) {
    var hour, day, tx := SpendPushed(b.hourSpendSum, call), SpendPushed(b.daySpendSum, call), OutcomePushed(call);
    if Prunes(b, call) then
      && Moved(b.hourEvents, b.hourSpendSum, hour, call.now - HOUR_MS, b'.hourEvents, b'.hourSpendSum)
      && Moved(b.dayEvents, b.daySpendSum, day, call.now - DAY_MS, b'.dayEvents, b'.daySpendSum)
      && WindowMoved(b.txWindow, b.successes, tx, call.now - c.txSuccessRateWindow, true, b'.txWindow, b'.successes)
      && WindowMoved(b.txWindow, b.failures, tx, call.now - c.txSuccessRateWindow, false, b'.txWindow, b'.failures)
    else hour == [] && day == [] && tx == [] && SameQueues(b, b')
  }

  /** Pruning `pre`, which is `b` with the call's events pushed, has the call's effect. */
  lemma PruneEffect(c: Config, b: Budget, call: Call, pre: Budget)
    requires Prunes(b, call)
    requires var hour, day := SpendPushed(b.hourSpendSum, call), SpendPushed(b.daySpendSum, call);
             && pre.hourEvents == b.hourEvents + hour && pre.hourSpendSum == b.hourSpendSum + Sum(hour)
             && pre.dayEvents == b.dayEvents + day && pre.daySpendSum == b.daySpendSum + Sum(day)
    requires pre.txWindow == b.txWindow + OutcomePushed(call)
    requires pre.successes == b.successes + Count(OutcomePushed(call), true)
    requires pre.failures == b.failures + Count(OutcomePushed(call), false)
    ensures Effect(c, b, call, pre.Prune(c, call.now))
  {
  }

  lemma CanSpendEffect(c: Config, b: Budget, call: Call)
    requires call.what.CanSpend?
    ensures Effect(c, b, call, Perform(c, b, call))
  {
    if Prunes(b, call) {
      PruneEffect(c, b, call, b.Roll(c, call.now));
      assert SameQueues(b.Stats(c, call.now), Perform(c, b, call));
    }
  }

  lemma RecordEffect(c: Config, b: Budget, call: Call)
    requires call.what.RecordTx?
    ensures Effect(c, b, call, Perform(c, b, call))
  {
    if Prunes(b, call) {
      var v := call.what.amount.v;
      PruneEffect(c, b, call, b.Roll(c, call.now).Release(v).Book(v, call.what.result, call.now));
    }
  }

  lemma AdjustEffect(c: Config, b: Budget, call: Call)
    requires call.what.Adjust?
    ensures Effect(c, b, call, Perform(c, b, call))
  {
    if Prunes(b, call) {
      var delta := call.what.realized.v - call.what.estimated.v;
      var r := b.(drift := b.drift + delta, driftSamples := b.driftSamples + 1).Roll(c, call.now);
      PruneEffect(c, b, call, r.ApplyDelta(delta, call.now));
    }
  }

  lemma CallEffect(c: Config, b: Budget, call: Call)
    ensures Effect(c, b, call, Perform(c, b, call))
  {
    match call.what
    case CanSpend(_, _) => CanSpendEffect(c, b, call);
    case RecordTx(_, _) => RecordEffect(c, b, call);
    case Adjust(_, _) => AdjustEffect(c, b, call);
    case GetStats => PruneEffect(c, b, call, b.Roll(c, call.now));
    case _ =>
  }

  // ---------- the invariants, one queue at a time ----------

  ghost predicate QueueOk(queue: seq<Stamped<int>>, sum: int, log: seq<Stamped<int>>, cutoff: int) {
    sum == Sum(queue) && queue == DropExpired(log, cutoff)
  }

  ghost predicate WindowOk(q: seq<Stamped<bool>>, yes: int, no: int, log: seq<Stamped<bool>>, cutoff: int) {
    q == DropExpired(log, cutoff) && yes == Count(q, true) && no == Count(q, false)
  }

  /** Stamps never decrease and end no later than `now`. */
  ghost predicate LogOk<T>(log: seq<Stamped<T>>, now: int) {
    log == [] || (var e := log[|log| - 1]; e.ts <= now && LogOk(log[..|log| - 1], e.ts))
  }

  lemma {:induction false} LogIsSorted<T>(log: seq<Stamped<T>>, now: int)
    requires LogOk(log, now)
    ensures Sorted(log) && UpTo(log, now)
  {
    if log != [] { LogIsSorted(log[..|log| - 1], log[|log| - 1].ts); }
  }

  lemma LogKept<T>(log: seq<Stamped<T>>, now: int, cutoff: int)
    requires LogOk(log, now)
    ensures DropExpired(log, cutoff) == Since(log, cutoff)
  {
    LogIsSorted(log, now);
    DropIsSince(log, cutoff);
  }

  ghost predicate HourOk(l: Logged) {
    QueueOk(l.b.hourEvents, l.b.hourSpendSum, l.hourLog, l.prunedAt - HOUR_MS)
  }

  ghost predicate DayOk(l: Logged) {
    QueueOk(l.b.dayEvents, l.b.daySpendSum, l.dayLog, l.prunedAt - DAY_MS)
  }

  ghost predicate OutcomesOk(c: Config, l: Logged) {
    WindowOk(l.b.txWindow, l.b.successes, l.b.failures, l.txLog, l.prunedAt - c.txSuccessRateWindow)
  }

  ghost predicate LogsOk(l: Logged, now: int) {
    LogOk(l.hourLog, now) && LogOk(l.dayLog, now) && LogOk(l.txLog, now)
  }

  ghost predicate Inv(c: Config, l: Logged, now: int) {
    l.prunedAt <= now && HourOk(l) && DayOk(l) && OutcomesOk(c, l) && LogsOk(l, now)
  }

  lemma MovedOk(q: seq<Stamped<int>>, sum: int, log: seq<Stamped<int>>, pushed: seq<Stamped<int>>,
                cut: int, newCut: int, q': seq<Stamped<int>>, sum': int)
    requires QueueOk(q, sum, log, cut) && cut <= newCut && Moved(q, sum, pushed, newCut, q', sum')
    ensures QueueOk(q', sum', log + pushed, newCut)
  {
    SumAppend(q, pushed);
    DropDrop(log, pushed, cut, newCut);
  }

  lemma WindowMovedOk(q: seq<Stamped<bool>>, yes: int, no: int, log: seq<Stamped<bool>>, pushed: seq<Stamped<bool>>,
                      cut: int, newCut: int, q': seq<Stamped<bool>>, yes': int, no': int)
    requires WindowOk(q, yes, no, log, cut) && cut <= newCut
    requires WindowMoved(q, yes, pushed, newCut, true, q', yes') && WindowMoved(q, no, pushed, newCut, false, q', no')
    ensures WindowOk(q', yes', no', log + pushed, newCut)
  {
    CountAppend(q, pushed, true);
    CountAppend(q, pushed, false);
    DropDrop(log, pushed, cut, newCut);
  }

  lemma PushedLogOk<T>(log: seq<Stamped<T>>, pushed: seq<Stamped<T>>, now: int, newNow: int)
    requires LogOk(log, now) && now <= newNow
    requires |pushed| <= 1 && (pushed != [] ==> pushed[0].ts == newNow)
    ensures LogOk(log + pushed, newNow)
  {
    if pushed == [] {
      assert log + pushed == log;
    } else {
      assert (log + pushed)[..|log + pushed| - 1] == log;
    }
  }

  lemma HourStep(c: Config, l: Logged, call: Call)
    requires HourOk(l) && l.prunedAt <= call.now
    ensures HourOk(Step(c, l, call))
  {
    var pushed, b' := SpendPushed(l.b.hourSpendSum, call), Perform(c, l.b, call);
    CallEffect(c, l.b, call);
    if Prunes(l.b, call) {
      MovedOk(l.b.hourEvents, l.b.hourSpendSum, l.hourLog, pushed, l.prunedAt - HOUR_MS, call.now - HOUR_MS,
              b'.hourEvents, b'.hourSpendSum);
    } else {
      assert l.hourLog + pushed == l.hourLog;
    }
  }

  lemma DayStep(c: Config, l: Logged, call: Call)
    requires DayOk(l) && l.prunedAt <= call.now
    ensures DayOk(Step(c, l, call))
  {
    var pushed, b' := SpendPushed(l.b.daySpendSum, call), Perform(c, l.b, call);
    CallEffect(c, l.b, call);
    if Prunes(l.b, call) {
      MovedOk(l.b.dayEvents, l.b.daySpendSum, l.dayLog, pushed, l.prunedAt - DAY_MS, call.now - DAY_MS,
              b'.dayEvents, b'.daySpendSum);
    } else {
      assert l.dayLog + pushed == l.dayLog;
    }
  }

  lemma OutcomesStep(c: Config, l: Logged, call: Call)
    requires OutcomesOk(c, l) && l.prunedAt <= call.now
    ensures OutcomesOk(c, Step(c, l, call))
  {
    var pushed, w, b' := OutcomePushed(call), c.txSuccessRateWindow, Perform(c, l.b, call);
    CallEffect(c, l.b, call);
    if Prunes(l.b, call) {
      WindowMovedOk(l.b.txWindow, l.b.successes, l.b.failures, l.txLog, pushed, l.prunedAt - w, call.now - w,
                    b'.txWindow, b'.successes, b'.failures);
    } else {
      assert l.txLog + pushed == l.txLog;
    }
  }

  lemma LogsStep(c: Config, l: Logged, now: int, call: Call)
    requires LogsOk(l, now) && now <= call.now
    ensures LogsOk(Step(c, l, call), call.now)
  {
    PushedSpend(l.hourLog, l.b.hourSpendSum, now, call);
    PushedSpend(l.dayLog, l.b.daySpendSum, now, call);
    PushedLogOk(l.txLog, OutcomePushed(call), now, call.now);
  }

  lemma PushedSpend(log: seq<Stamped<int>>, sum: int, now: int, call: Call)
    requires LogOk(log, now) && now <= call.now
    ensures LogOk(log + SpendPushed(sum, call), call.now)
  {
    PushedLogOk(log, SpendPushed(sum, call), now, call.now);
  }

  lemma StepInv(c: Config, l: Logged, now: int, call: Call)
    requires Inv(c, l, now) && now <= call.now
    ensures Inv(c, Step(c, l, call), call.now)
  {
    HourStep(c, l, call);
    DayStep(c, l, call);
    OutcomesStep(c, l, call);
    LogsStep(c, l, now, call);
  }

  lemma {:induction false} RunInv(c: Config, calls: seq<Call>)
    requires Clocked(calls)
    ensures Inv(c, Run(c, calls), LastNow(calls))
  {
    if calls != [] {
      var front, call := calls[..|calls| - 1], calls[|calls| - 1];
      RunInv(c, front);
      StepInv(c, Run(c, front), LastNow(front), call);
    }
  }

  ghost predicate SumsAgree(c: Config, l: Logged) {
    && l.b.hourSpendSum == Sum(l.b.hourEvents)
    && l.b.hourEvents == Since(l.hourLog, l.prunedAt - HOUR_MS)
    && l.b.daySpendSum == Sum(l.b.dayEvents)
    && l.b.dayEvents == Since(l.dayLog, l.prunedAt - DAY_MS)
    && l.b.successes == Count(l.b.txWindow, true)
    && l.b.failures == Count(l.b.txWindow, false)
    && l.b.txWindow == Since(l.txLog, l.prunedAt - c.txSuccessRateWindow)
  }

  lemma InvSumsAgree(c: Config, l: Logged, now: int)
    requires Inv(c, l, now)
    ensures SumsAgree(c, l)
  {
    QueueKept(l.b.hourEvents, l.b.hourSpendSum, l.hourLog, now, l.prunedAt - HOUR_MS);
    QueueKept(l.b.dayEvents, l.b.daySpendSum, l.dayLog, now, l.prunedAt - DAY_MS);
    WindowKept(l.b.txWindow, l.b.successes, l.b.failures, l.txLog, now, l.prunedAt - c.txSuccessRateWindow);
  }

  lemma WindowKept(q: seq<Stamped<bool>>, yes: int, no: int, log: seq<Stamped<bool>>, now: int, cutoff: int)
    requires WindowOk(q, yes, no, log, cutoff) && LogOk(log, now)
    ensures yes == Count(q, true) && no == Count(q, false) && q == Since(log, cutoff)
  {
    LogKept(log, now, cutoff);
  }

  lemma QueueKept(queue: seq<Stamped<int>>, sum: int, log: seq<Stamped<int>>, now: int, cutoff: int)
    requires QueueOk(queue, sum, log, cutoff) && LogOk(log, now)
    ensures sum == Sum(queue) && queue == Since(log, cutoff)
  {
    LogKept(log, now, cutoff);
  }

  /**
   Running sums agree with their logs, after any sequence of calls: each cached
   sum is the sum of its queue, each queue is exactly the pushed events not yet
   expired at the last prune, and the window's counters count it.
   */
  lemma SumsAgreeWithLogs(c: Config, calls: seq<Call>)
    requires Clocked(calls)
    ensures SumsAgree(c, Run(c, calls))
  {
    RunInv(c, calls);
    InvSumsAgree(c, Run(c, calls), LastNow(calls));
  }

  lemma {:induction false} WithoutReconciliation(c: Config, calls: seq<Call>)
    requires forall i :: 0 <= i < |calls| ==> !calls[i].what.Adjust?
    ensures Run(c, calls).hourLog == Run(c, calls).dayLog && NonNegative(Run(c, calls).hourLog)
  {
    if calls != [] { WithoutReconciliation(c, calls[..|calls| - 1]); }
  }

  /** Without reconciliation the hour never exceeds the day, and neither is negative. */
  lemma HourWithinDay(c: Config, calls: seq<Call>)
    requires Clocked(calls)
    requires forall i :: 0 <= i < |calls| ==> !calls[i].what.Adjust?
    ensures 0 <= Run(c, calls).b.hourSpendSum <= Run(c, calls).b.daySpendSum
  {
    RunInv(c, calls);
    WithoutReconciliation(c, calls);
    OneLogHourWithinDay(c, Run(c, calls), LastNow(calls));
  }

  lemma OneLogHourWithinDay(c: Config, l: Logged, now: int)
    requires Inv(c, l, now) && l.hourLog == l.dayLog && NonNegative(l.dayLog)
    ensures 0 <= l.b.hourSpendSum <= l.b.daySpendSum
  {
    DropAgain(l.dayLog, l.prunedAt - DAY_MS, l.prunedAt - HOUR_MS);
    DropShrinks(l.dayLog, l.prunedAt - DAY_MS);
    DropShrinks(l.b.dayEvents, l.prunedAt - HOUR_MS);
  }

  // ---------- the success-rate breaker ----------

  /** The rate any call at time t would look at. */
  function RateAt(c: Config, b: Budget, t: int): Rate {
    b.Stats(c, t).SuccessRate(c)
  }

  /** The same calls without the records of landed reverts and drops. */
  function Erase(calls: seq<Call>): seq<Call> {
    if calls == [] then []
    else
      var call := calls[|calls| - 1];
      var rest := Erase(calls[..|calls| - 1]);
      if call.what.RecordTx? && (call.what.result == Reverted || call.what.result == Drop) then rest
      else rest + [call]
  }

  lemma {:induction false} EraseKeepsOutcomes(c: Config, calls: seq<Call>)
    ensures Run(c, calls).txLog == Run(c, Erase(calls)).txLog
  {
    if calls != [] {
      var front, call := calls[..|calls| - 1], calls[|calls| - 1];
      EraseKeepsOutcomes(c, front);
      if call.what.RecordTx? && (call.what.result == Reverted || call.what.result == Drop) {
        assert OutcomePushed(call) == [];
      } else {
        assert Erase(calls)[..|Erase(calls)| - 1] == Erase(front);
      }
    }
  }

  /** `rate` is the share of successes among these outcomes, if there are enough of them. */
  predicate RateIs(c: Config, recent: seq<Stamped<bool>>, rate: Rate) {
    match rate
    case TooFewSamples => |recent| < c.txSuccessRateMinSamples
    case NotANumber => c.txSuccessRateMinSamples == 0 && recent == []
    case Value(r) =>
      |recent| >= c.txSuccessRateMinSamples && recent != [] && r * (|recent| as real) == Count(recent, true) as real
  }

  /** Enough outcomes were logged within the window before t, and too few of them were successes. */
  predicate RateLow(c: Config, log: seq<Stamped<bool>>, t: int) {
    var recent := Since(log, t - c.txSuccessRateWindow);
    && |recent| >= c.txSuccessRateMinSamples && recent != []
    && Count(recent, true) as real < c.txSuccessRateThreshold * (|recent| as real)
  }

  lemma Share(r: real, n: nat, k: int, threshold: real)
    requires n > 0 && r * (n as real) == k as real
    ensures r < threshold <==> k as real < threshold * (n as real)
  {
    var x := n as real;
    assert (threshold - r) * x == threshold * x - r * x;
  }

  lemma LowExactly(c: Config, log: seq<Stamped<bool>>, t: int, rate: Rate)
    requires RateIs(c, Since(log, t - c.txSuccessRateWindow), rate)
    ensures Below(rate, c.txSuccessRateThreshold) <==> RateLow(c, log, t)
  {
    var recent := Since(log, t - c.txSuccessRateWindow);
    if rate.Value? { Share(rate.r, |recent|, Count(recent, true), c.txSuccessRateThreshold); }
  }

  lemma WindowRate(c: Config, b: Budget, recent: seq<Stamped<bool>>)
    requires b.txWindow == recent && b.successes == Count(recent, true)
    ensures RateIs(c, recent, b.SuccessRate(c))
  {
    if recent != [] {
      var k, n := Count(recent, true) as real, |recent| as real;
      assert k / n * n == k;
    }
  }

  lemma StatsWindow(c: Config, b: Budget, t: int, recent: seq<Stamped<bool>>)
    requires b.successes == Count(b.txWindow, true)
    requires DropExpired(b.txWindow, t - c.txSuccessRateWindow) == recent
    ensures b.Stats(c, t).txWindow == recent && b.Stats(c, t).successes == Count(recent, true)
  {
  }

  lemma OutcomesAt(c: Config, l: Logged, now: int, cutoff: int)
    requires OutcomesOk(c, l) && LogOk(l.txLog, now) && l.prunedAt - c.txSuccessRateWindow <= cutoff
    ensures l.b.successes == Count(l.b.txWindow, true) && DropExpired(l.b.txWindow, cutoff) == Since(l.txLog, cutoff)
  {
    DropAgain(l.txLog, l.prunedAt - c.txSuccessRateWindow, cutoff);
    LogKept(l.txLog, now, cutoff);
  }

  lemma InvRate(c: Config, l: Logged, now: int, t: int)
    requires Inv(c, l, now) && now <= t
    ensures RateIs(c, Since(l.txLog, t - c.txSuccessRateWindow), RateAt(c, l.b, t))
    ensures Below(RateAt(c, l.b, t), c.txSuccessRateThreshold) <==> RateLow(c, l.txLog, t)
  {
    var b := l.b.Stats(c, t);
    var recent := Since(l.txLog, t - c.txSuccessRateWindow);
    OutcomesAt(c, l, now, t - c.txSuccessRateWindow);
    StatsWindow(c, l.b, t, recent);
    WindowRate(c, b, recent);
    LowExactly(c, l.txLog, t, b.SuccessRate(c));
  }

  /**
   The rate at t is the share of successes among the outcomes logged in the window before t,
   whenever they were pruned, so it is below the threshold exactly when that log says so.
   */
  lemma RateFromLog(c: Config, calls: seq<Call>, t: int)
    requires Clocked(calls) && LastNow(calls) <= t
    ensures var l := Run(c, calls);
            && RateIs(c, Since(l.txLog, t - c.txSuccessRateWindow), RateAt(c, l.b, t))
            && (Below(RateAt(c, l.b, t), c.txSuccessRateThreshold) <==> RateLow(c, l.txLog, t))
  {
    RunInv(c, calls);
    InvRate(c, Run(c, calls), LastNow(calls), t);
  }

  /**
   Reverts and drops cannot move the breaker: two runs on one clock that differ
   only in such records see the same success rate at every corresponding moment.
   */
  lemma RevertsDoNotMoveTheRate(c: Config, one: seq<Call>, other: seq<Call>, t: int)
    requires Clocked(one) && Clocked(other) && Erase(one) == Erase(other)
    requires LastNow(one) <= t && LastNow(other) <= t
    ensures RateAt(c, Run(c, one).b, t) == RateAt(c, Run(c, other).b, t)
  {
    EraseKeepsOutcomes(c, one);
    EraseKeepsOutcomes(c, other);
    RateFromLog(c, one, t);
    RateFromLog(c, other, t);
    OneRate(c, Since(Run(c, one).txLog, t - c.txSuccessRateWindow), RateAt(c, Run(c, one).b, t),
            RateAt(c, Run(c, other).b, t));
  }

  lemma OneRate(c: Config, recent: seq<Stamped<bool>>, one: Rate, other: Rate)
    requires RateIs(c, recent, one) && RateIs(c, recent, other)
    ensures one == other
  {
    if one.Value? {
      var x := |recent| as real;
      assert (one.r - other.r) * x == one.r * x - other.r * x == 0.0;
    }
  }

  predicate NoFailRecord(calls: seq<Call>) {
    forall i :: 0 <= i < |calls| ==> !(calls[i].what.RecordTx? && calls[i].what.result == Fail)
  }

  ghost predicate AllTrue(q: seq<Stamped<bool>>) {
    forall i :: 0 <= i < |q| ==> q[i].what
  }

  lemma {:induction false} AllTrueCounts(q: seq<Stamped<bool>>)
    requires AllTrue(q)
    ensures Count(q, true) == |q|
  {
    if q != [] { AllTrueCounts(q[1..]); }
  }

  lemma {:induction false} OnlySuccessesLogged(c: Config, calls: seq<Call>)
    requires NoFailRecord(calls)
    ensures AllTrue(Run(c, calls).txLog)
  {
    if calls != [] { OnlySuccessesLogged(c, calls[..|calls| - 1]); }
  }

  lemma {:induction false} SinceAllTrue(log: seq<Stamped<bool>>, from: int)
    requires AllTrue(log)
    ensures AllTrue(Since(log, from))
  {
    if log != [] { SinceAllTrue(log[1..], from); }
  }

  lemma AllTrueRate(c: Config, log: seq<Stamped<bool>>, t: int)
    requires AllTrue(log) && c.txSuccessRateThreshold <= 1.0
    ensures !RateLow(c, log, t)
  {
    var recent := Since(log, t - c.txSuccessRateWindow);
    SinceAllTrue(log, t - c.txSuccessRateWindow);
    AllTrueCounts(recent);
    assert c.txSuccessRateThreshold * (|recent| as real) <= |recent| as real;
  }

  lemma RateHaltNeedsLowRate(c: Config, b: Budget, call: Call)
    requires b.halted != Some(TxSuccessRate)
    requires Perform(c, b, call).halted == Some(TxSuccessRate)
    ensures call.what.CanSpend? && Below(RateAt(c, b, call.now), c.txSuccessRateThreshold)
  {
  }

  /** A run in which nothing failed to land never trips the success-rate breaker. */
  lemma {:induction false} NoFailNoRateHalt(c: Config, calls: seq<Call>)
    requires Clocked(calls) && NoFailRecord(calls) && c.txSuccessRateThreshold <= 1.0
    ensures Run(c, calls).b.halted != Some(TxSuccessRate)
  {
    if calls != [] {
      var front, call := calls[..|calls| - 1], calls[|calls| - 1];
      NoFailNoRateHalt(c, front);
      OnlySuccessesLogged(c, front);
      RateFromLog(c, front, call.now);
      AllTrueRate(c, Run(c, front).txLog, call.now);
      if Perform(c, Run(c, front).b, call).halted == Some(TxSuccessRate) {
        RateHaltNeedsLowRate(c, Run(c, front).b, call);
      }
    }
  }

  lemma HaltedStays(c: Config, b: Budget, call: Call)
    requires b.halted.Some? && !call.what.Resume?
    ensures Perform(c, b, call).halted == b.halted
  {
  }

  /** A halt latches: until a resume, no call clears it and every send is refused. */
  lemma {:induction false} HaltLatches(c: Config, l: Logged, calls: seq<Call>)
    requires l.b.halted.Some?
    requires forall i :: 0 <= i < |calls| ==> !calls[i].what.Resume?
    ensures RunFrom(c, l, calls).b.halted == l.b.halted
    ensures forall cost, lane, now :: !RunFrom(c, l, calls).b.CanSpend(c, cost, lane, now).1
  {
    if calls != [] {
      var front := calls[..|calls| - 1];
      HaltLatches(c, l, front);
      HaltedStays(c, RunFrom(c, l, front).b, calls[|calls| - 1]);
    }
  }

  lemma CallNeverLatchesCycleCaps(c: Config, b: Budget, call: Call)
    requires b.halted != Some(CycleSpendCap) && b.halted != Some(CycleTxCountCap)
    ensures var h := Perform(c, b, call).halted; h != Some(CycleSpendCap) && h != Some(CycleTxCountCap)
  {
    if call.what.CanSpend? {
      GateLatches(c, b, call.what.cost, call.what.lane, call.now);
    }
  }

  lemma GateLatches(c: Config, b: Budget, cost: Num, lane: TxType, now: int)
    ensures var h := b.CanSpend(c, cost, lane, now).0.halted;
            h == b.halted || h in {Some(NonFiniteCost), Some(HourSpendCap), Some(DaySpendCap), Some(TxSuccessRate)}
  {
  }

  /** The per-cycle caps are soft: no sequence of calls ever latches a halt on one of them. */
  lemma {:induction false} CycleCapsNeverLatch(c: Config, calls: seq<Call>)
    ensures Run(c, calls).b.halted != Some(CycleSpendCap)
    ensures Run(c, calls).b.halted != Some(CycleTxCountCap)
  {
    if calls != [] {
      var front := calls[..|calls| - 1];
      CycleCapsNeverLatch(c, front);
      CallNeverLatchesCycleCaps(c, Run(c, front).b, calls[|calls| - 1]);
    }
  }

  // ---------- reconciliation while halted ----------

  function Sampled(b: Budget, delta: int): Budget {
    b.(drift := b.drift + delta, driftSamples := b.driftSamples + 1)
  }

  lemma AdjustIs(c: Config, b: Budget, estimated: Num, realized: Num, delta: int, now: int)
    requires Ok(estimated) && Ok(realized) && delta == realized.v - estimated.v
    ensures b.Adjust(c, estimated, realized, now) == Sampled(b, delta).Roll(c, now).ApplyDelta(delta, now).Prune(c, now)
  {
  }

  lemma AdjustSampled(c: Config, b: Budget, delta: int, now: int)
    ensures b.Roll(c, now).ApplyDelta(delta, now).Prune(c, now).driftSamples == b.driftSamples
  {
  }

  /** Reconciliation changes the budget exactly when both costs are finite and not negative, halted or not. */
  lemma AdjustChangesExactly(c: Config, b: Budget, estimated: Num, realized: Num, now: int)
    ensures b.Adjust(c, estimated, realized, now) == b <==> !Ok(estimated) || !Ok(realized)
  {
    if Ok(estimated) && Ok(realized) {
      var delta := realized.v - estimated.v;
      AdjustIs(c, b, estimated, realized, delta, now);
      AdjustSampled(c, Sampled(b, delta), delta, now);
    }
  }

  /** An operator's halt, then a reconciliation: every total moves, and the halt stays. */
  lemma HaltedTotalsMove(c: Config, gain: nat, now: int)
    ensures var halted := Perform(c, Fresh, Call(now, HaltManually));
            var b := Perform(c, halted, Call(now, Adjust(Finite(0), Finite(gain))));
            && halted.halted == b.halted == Some(Operator) && halted.cycleSpend == 0
            && b.cycleSpend == b.hourSpendSum == b.daySpendSum == gain
  {
    var b := Fresh.Halt(Operator).(driftSamples := 1, drift := gain).Roll(c, now).ApplyDelta(gain, now);
    assert b.hourEvents == (if gain == 0 then [] else [Stamped(now, gain)]) == b.dayEvents;
    assert b.Prune(c, now).hourEvents == b.hourEvents && b.Prune(c, now).dayEvents == b.dayEvents;
  }

  // ---------- the gate, on the history ----------

  lemma {:induction false} ReservedNonNegative(c: Config, calls: seq<Call>)
    ensures Run(c, calls).b.reservedLamports >= 0 && Run(c, calls).b.reservedTxCount >= 0
  {
    if calls != [] {
      ReservedNonNegative(c, calls[..|calls| - 1]);
      ReservedStep(c, Run(c, calls[..|calls| - 1]).b, calls[|calls| - 1]);
    }
  }

  lemma ReservedStep(c: Config, b: Budget, call: Call)
    requires b.reservedLamports >= 0 && b.reservedTxCount >= 0
    ensures Perform(c, b, call).reservedLamports >= 0 && Perform(c, b, call).reservedTxCount >= 0
  {
    match call.what
    case CanSpend(cost, lane) => GateReserves(c, b, cost, lane, call.now);
    case RecordTx(cost, result) => RecordReserves(c, b, cost, result, call.now);
    case _ =>
  }

  lemma GateReserves(c: Config, b: Budget, cost: Num, lane: TxType, now: int)
    ensures var (after, admitted) := b.CanSpend(c, cost, lane, now);
            && after.reservedLamports == b.reservedLamports + (if admitted then cost.v else 0)
            && after.reservedTxCount == b.reservedTxCount + (if admitted then 1 else 0)
            && (admitted ==> Ok(cost))
  {
  }

  lemma RecordReserves(c: Config, b: Budget, cost: Num, result: TxResult, now: int)
    requires b.reservedLamports >= 0 && b.reservedTxCount >= 0
    ensures b.RecordTx(c, cost, result, now).reservedLamports >= 0
    ensures b.RecordTx(c, cost, result, now).reservedTxCount >= 0
  {
  }

  /** The lamports pushed to a log within the last `span`. */
  function Recent(log: seq<Stamped<int>>, span: int, now: int): int {
    Sum(Since(log, now - span))
  }

  /** A queue pruned now holds what its log says is recent. */
  lemma QueueIsRecent(queue: seq<Stamped<int>>, sum: int, log: seq<Stamped<int>>, cutoff: int, span: int, now: int)
    requires QueueOk(queue, sum, log, cutoff) && LogOk(log, now) && cutoff <= now - span
    ensures sum - (Sum(queue) - Sum(DropExpired(queue, now - span))) == Recent(log, span, now)
  {
    DropAgain(log, cutoff, now - span);
    LogKept(log, now, now - span);
  }

  predicate SameLogs(b: Budget, b': Budget) {
    && b'.hourEvents == b.hourEvents && b'.hourSpendSum == b.hourSpendSum
    && b'.dayEvents == b.dayEvents && b'.daySpendSum == b.daySpendSum
  }

  lemma SumsAtTheGate(c: Config, l: Logged, t: int, now: int, rolled: Budget)
    requires Inv(c, l, t) && t <= now && SameLogs(l.b, rolled)
    ensures rolled.Prune(c, now).hourSpendSum == Recent(l.hourLog, HOUR_MS, now)
    ensures rolled.Prune(c, now).daySpendSum == Recent(l.dayLog, DAY_MS, now)
  {
    LaterLogs(c, l, t, now);
    QueueIsRecent(l.b.hourEvents, l.b.hourSpendSum, l.hourLog, l.prunedAt - HOUR_MS, HOUR_MS, now);
    QueueIsRecent(l.b.dayEvents, l.b.daySpendSum, l.dayLog, l.prunedAt - DAY_MS, DAY_MS, now);
  }

  lemma LaterLogs(c: Config, l: Logged, t: int, now: int)
    requires Inv(c, l, t) && t <= now
    ensures LogOk(l.hourLog, now) && LogOk(l.dayLog, now) && l.prunedAt <= now
  {
  }

  /**
   The attempts a lane may make in a cycle: all of them for liquidation, oracle and adl; a crank
   leaves the reserved ones, but may always make one when any are allowed.
   */
  function LaneCap(c: Config, lane: TxType): nat {
    match lane
    case Liquidation => c.maxTxPerCycle
    case Oracle => c.maxTxPerCycle
    case Adl => c.maxTxPerCycle
    case Crank =>
      if c.reservedCriticalTxPerCycle <= 0 then c.maxTxPerCycle
      else if c.reservedCriticalTxPerCycle < c.maxTxPerCycle then c.maxTxPerCycle - c.reservedCriticalTxPerCycle
      else Min(1, c.maxTxPerCycle)
  }

  lemma LaneCapExactly(c: Config, lane: TxType)
    ensures c.EffectiveTxCap(lane) == LaneCap(c, lane)
    ensures c.Reserved() == c.maxTxPerCycle - LaneCap(c, Crank)
    ensures IsCritical(lane) <==> lane == Liquidation || lane == Oracle || lane == Adl
  {
  }

  /** The first limit a proposed cost runs into, reservations aside. */
  datatype Verdict = Fits | OverCycle | OverHour | OverDay | OverCount | LowRate

  function Judge(c: Config, spent: int, attempts: int, hour: int, day: int, low: bool, cost: int,
                 lane: TxType): Verdict {
    if spent + cost > c.maxSolPerCycle then OverCycle
    else if hour + cost > c.maxSolPerHour then OverHour
    else if day + cost > c.maxSolPerDay then OverDay
    else if attempts + 1 > LaneCap(c, lane) then OverCount
    else if low then LowRate
    else Fits
  }

  function LatchOf(v: Verdict): Option<HaltKind> {
    match v
    case OverHour => Some(HourSpendCap)
    case OverDay => Some(DaySpendCap)
    case LowRate => Some(TxSuccessRate)
    case _ => None
  }

  /**
   The gate decides on the full history, whatever was pruned when: it admits exactly when
   nothing is halted and, reservations included, the cost fits this cycle, the last hour
   and the last day of everything ever booked, a slot is free and the success rate of the
   logged outcomes is high enough; and it latches exactly when settled spend alone or the
   rate is over an hour, day or rate limit before a cycle limit refuses softly.
   */
  lemma GateOnHistory(c: Config, calls: seq<Call>, cost: nat, lane: TxType, now: int)
    requires Clocked(calls) && LastNow(calls) <= now && Run(c, calls).b.halted.None?
    ensures GateIs(c, Run(c, calls), cost, lane, now)
  {
    ReservedNonNegative(c, calls);
    RunInv(c, calls);
    GateOnLogs(c, Run(c, calls), LastNow(calls), cost, lane, now);
  }

  /** What the gate does at `now`, in terms of the logs and of the open cycle. */
  ghost predicate GateIs(c: Config, l: Logged, cost: nat, lane: TxType, now: int) {
    var (after, admitted) := l.b.CanSpend(c, Finite(cost), lane, now);
    var spent, attempts := l.b.Roll(c, now).cycleSpend, l.b.Roll(c, now).cycleTxCount;
    var hour, day := Recent(l.hourLog, 3_600_000, now), Recent(l.dayLog, 86_400_000, now);
    var low := RateLow(c, l.txLog, now);
    && (admitted <==>
          && spent + l.b.reservedLamports + cost <= c.maxSolPerCycle
          && hour + l.b.reservedLamports + cost <= c.maxSolPerHour
          && day + l.b.reservedLamports + cost <= c.maxSolPerDay
          && attempts + l.b.reservedTxCount + 1 <= LaneCap(c, lane)
          && !low)
    && after.halted == LatchOf(Judge(c, spent, attempts, hour, day, low, cost, lane))
  }

  lemma GateOnLogs(c: Config, l: Logged, t: int, cost: nat, lane: TxType, now: int)
    requires Inv(c, l, t) && t <= now && l.b.halted.None?
    requires l.b.reservedLamports >= 0 && l.b.reservedTxCount >= 0
    ensures GateIs(c, l, cost, lane, now)
  {
    SumsAtTheGate(c, l, t, now, l.b.Roll(c, now));
    InvRate(c, l, t, now);
    GateOnSums(c, l.b, cost, lane, now);
    LaneCapExactly(c, lane);
  }

  lemma GateOnSums(c: Config, b: Budget, cost: nat, lane: TxType, now: int)
    requires b.halted.None? && b.reservedLamports >= 0 && b.reservedTxCount >= 0
    ensures var (after, admitted) := b.CanSpend(c, Finite(cost), lane, now);
            var p := b.Roll(c, now).Prune(c, now);
            && (admitted <==>
                p.FitsWithReservations(c, cost, lane) && !Below(p.SuccessRate(c), c.txSuccessRateThreshold))
            && after.halted == LatchOf(Judge(c, p.cycleSpend, p.cycleTxCount, p.hourSpendSum, p.daySpendSum,
                                             Below(p.SuccessRate(c), c.txSuccessRateThreshold), cost, lane))
  {
    LaneCapExactly(c, lane);
  }
}
