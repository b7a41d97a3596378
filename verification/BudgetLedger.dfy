/**
 Budget calls as the send path makes them: a record always settles a reservation
 that an admitted canSpend took. The complete history is kept beside the budget.
 */
module BudgetLedger {
  import opened Prelude
  import opened Events
  import opened BudgetState
  import BudgetLog

  /** An admitted send that has not settled. */
  datatype Flight = Flight(cost: nat, lane: TxType)

  datatype What =
    | Spend(cost: Num, lane: TxType)
    | Settle(i: nat, result: TxResult)
    | Reconcile(estimated: Num, realized: Num)
    | Peek
    | HaltManually
    | Resume

  datatype Act = Act(now: int, what: What)

  /**
   `booked` are the lamports booked, `attempts` has weight 1 for every settled
   attempt, `routine` weight 1 for the routine-lane ones and 0 for the others,
   `gains` the positive part of every reconciliation and `refunds` the negative part.
   */
  datatype Ledger = Ledger(
    l: BudgetLog.Logged,
    flights: seq<Flight>,
    booked: seq<Stamped<int>>,
    attempts: seq<Stamped<int>>,
    routine: seq<Stamped<int>>,
    gains: seq<Stamped<int>>,
    refunds: seq<Stamped<int>>)
  {
    function B(): Budget { l.b }

    /** What a reconciliation adds to the history. */
    function Corrected(now: int, estimated: Num, realized: Num): Ledger {
      if !BudgetLog.Ok(estimated) || !BudgetLog.Ok(realized) then this
      else
        this.(gains := gains + [Stamped(now, Max(0, realized.v - estimated.v))],
              refunds := refunds + [Stamped(now, Max(0, estimated.v - realized.v))])
    }
  }

  const Empty: Ledger := Ledger(BudgetLog.Start, [], [], [], [], [], [])

  function Without(fs: seq<Flight>, i: nat): seq<Flight>
    requires i < |fs|
  {
    fs[..i] + fs[i + 1..]
  }

  function Routine(lane: TxType): int {
    if lane == Crank then 1 else 0
  }

  function Next(c: Config, s: Ledger, act: Act): Ledger {
    match act.what
    case Spend(cost, lane) =>
      var admitted := s.B().CanSpend(c, cost, lane, act.now).1;
      s.(l := BudgetLog.Step(c, s.l, BudgetLog.Call(act.now, BudgetLog.CanSpend(cost, lane))),
         flights := if admitted && BudgetLog.Ok(cost) then s.flights + [Flight(cost.v, lane)] else s.flights)
    case Settle(i, result) =>
      if i >= |s.flights| then s
      else
        var f := s.flights[i];
        s.(l := BudgetLog.Step(c, s.l, BudgetLog.Call(act.now, BudgetLog.RecordTx(Finite(f.cost), result))),
           flights := Without(s.flights, i),
           booked := if result == Drop then s.booked else s.booked + [Stamped(act.now, f.cost)],
           attempts := s.attempts + [Stamped(act.now, 1)],
           routine := s.routine + [Stamped(act.now, Routine(f.lane))])
    case Reconcile(estimated, realized) =>
      s.Corrected(act.now, estimated, realized)
       .(l := BudgetLog.Step(c, s.l, BudgetLog.Call(act.now, BudgetLog.Adjust(estimated, realized))))
    case Peek => s.(l := BudgetLog.Step(c, s.l, BudgetLog.Call(act.now, BudgetLog.GetStats)))
    case HaltManually => s.(l := BudgetLog.Step(c, s.l, BudgetLog.Call(act.now, BudgetLog.HaltManually)))
    case Resume => s.(l := BudgetLog.Step(c, s.l, BudgetLog.Call(act.now, BudgetLog.Resume)))
  }

  function Run(c: Config, acts: seq<Act>): Ledger {
    if acts == [] then Empty else Next(c, Run(c, acts[..|acts| - 1]), acts[|acts| - 1])
  }

  lemma RunOneMore(c: Config, acts: seq<Act>, act: Act, s: Ledger)
    requires s == Run(c, acts)
    ensures Run(c, acts + [act]) == Next(c, s, act)
  {
    assert (acts + [act])[..|acts|] == acts;
  }

  lemma RunTwo(c: Config, acts: seq<Act>, a: Act, b: Act, s: Ledger)
    requires s == Run(c, acts)
    ensures Run(c, acts + [a, b]) == Next(c, Next(c, s, a), b)
  {
    RunOneMore(c, acts, a, s);
    RunOneMore(c, acts + [a], b, Next(c, s, a));
    assert acts + [a, b] == acts + [a] + [b];
  }

  ghost predicate Clocked(acts: seq<Act>) {
    && (forall i :: 0 <= i < |acts| ==> acts[i].now > 0)
    && (forall i, j :: 0 <= i < j < |acts| ==> acts[i].now <= acts[j].now)
  }

  function LastNow(acts: seq<Act>): int {
    if acts == [] then 0 else acts[|acts| - 1].now
  }

  // ---------- totals ----------

  function FlightCost(fs: seq<Flight>): nat {
    if fs == [] then 0 else fs[0].cost + FlightCost(fs[1..])
  }

  function RoutineFlights(fs: seq<Flight>): nat {
    if fs == [] then 0 else Routine(fs[0].lane) + RoutineFlights(fs[1..])
  }

  /** The weight logged at or after `from`. */
  function Total(log: seq<Stamped<int>>, from: int): int {
    Sum(Since(log, from))
  }

  /** The weight logged in [a, b). */
  function Between(log: seq<Stamped<int>>, a: int, b: int): int {
    Sum(Within(log, a, b))
  }

  lemma BetweenPush(log: seq<Stamped<int>>, e: Stamped<int>, a: int, b: int)
    ensures Between(log + [e], a, b) == Between(log, a, b) + (if a <= e.ts < b then e.what else 0)
  {
    WithinAppend(log, [e], a, b);
    SumAppend(Within(log, a, b), Within([e], a, b));
    assert [e][1..] == [];
  }

  lemma {:induction false} FlightsAppend(a: seq<Flight>, b: seq<Flight>)
    ensures FlightCost(a + b) == FlightCost(a) + FlightCost(b)
    ensures RoutineFlights(a + b) == RoutineFlights(a) + RoutineFlights(b)
  {
    if a == [] {
      assert a + b == b;
    } else {
      assert (a + b)[1..] == a[1..] + b;
      FlightsAppend(a[1..], b);
    }
  }

  lemma FlightRemoved(fs: seq<Flight>, i: nat)
    requires i < |fs|
    ensures FlightCost(Without(fs, i)) == FlightCost(fs) - fs[i].cost
    ensures RoutineFlights(Without(fs, i)) == RoutineFlights(fs) - Routine(fs[i].lane)
  {
    FlightsAppend(fs[..i], fs[i + 1..]);
    FlightsAppend(fs[..i], [fs[i]]);
    FlightsAppend(fs[..i] + [fs[i]], fs[i + 1..]);
    assert fs == fs[..i] + [fs[i]] + fs[i + 1..];
  }

  lemma {:induction false} RoutineAtMostAll(fs: seq<Flight>)
    ensures RoutineFlights(fs) <= |fs|
  {
    if fs != [] { RoutineAtMostAll(fs[1..]); }
  }

  lemma {:induction false} TotalAppend(log: seq<Stamped<int>>, e: Stamped<int>, from: int)
    ensures Total(log + [e], from) == Total(log, from) + (if from <= e.ts then e.what else 0)
  {
    if log == [] {
      assert log + [e] == [e];
      assert Since([e][1..], from) == [];
    } else {
      assert (log + [e])[1..] == log[1..] + [e];
      TotalAppend(log[1..], e, from);
      var head := if from <= log[0].ts then [log[0]] else [];
      SumAppend(head, Since(log[1..], from));
      SumAppend(head, Since(log[1..] + [e], from));
    }
  }

  lemma {:induction false} TotalNone(log: seq<Stamped<int>>, from: int)
    requires UpTo(log, from - 1)
    ensures Total(log, from) == 0
  {
    if log != [] {
      assert log[0].ts <= from - 1 && Since(log, from) == Since(log[1..], from);
      TotalNone(log[1..], from);
    }
  }

  // ---------- the cycle window ----------

  /** Everything logged before the open window ends; nothing before the first anchor. */
  ghost predicate InWindow(c: Config, start: int, log: seq<Stamped<int>>) {
    if start == 0 then log == [] else UpTo(log, start + c.cycleWindowMs - 1)
  }

  predicate Rolls(c: Config, start: int, now: int) {
    start == 0 || now - start >= c.cycleWindowMs
  }

  function StartAt(c: Config, start: int, now: int): int {
    if Rolls(c, start, now) then now else start
  }

  /** Opening the window that `now` belongs to. */
  lemma RollLog(c: Config, start: int, log: seq<Stamped<int>>, now: int)
    requires c.cycleWindowMs > 0 && now > 0 && InWindow(c, start, log)
    ensures InWindow(c, StartAt(c, start, now), log)
    ensures Total(log, StartAt(c, start, now)) == if Rolls(c, start, now) then 0 else Total(log, start)
  {
    if Rolls(c, start, now) { TotalNone(log, now); }
  }

  lemma PushLog(c: Config, start: int, log: seq<Stamped<int>>, now: int, v: int)
    requires c.cycleWindowMs > 0 && start > 0 && start <= now < start + c.cycleWindowMs && InWindow(c, start, log)
    ensures InWindow(c, start, log + [Stamped(now, v)])
    ensures Total(log + [Stamped(now, v)], start) == Total(log, start) + v
  {
    TotalAppend(log, Stamped(now, v), start);
  }

  /** Reservations are exact, and the counts agree with the history of the open window. */
  ghost predicate Exact(c: Config, s: Ledger) {
    var b := s.B();
    && b.reservedLamports == FlightCost(s.flights)
    && b.reservedTxCount == |s.flights|
    && InWindow(c, b.cycleStartMs, s.attempts)
    && InWindow(c, b.cycleStartMs, s.routine)
    && InWindow(c, b.cycleStartMs, s.gains)
    && b.cycleTxCount == Total(s.attempts, b.cycleStartMs)
    && b.cycleStartMs >= 0
    && (b.cycleStartMs == 0 ==> b.cycleSpend == 0)
  }

  ghost predicate Capped(c: Config, s: Ledger) {
    var b := s.B();
    && 0 <= b.cycleSpend
    && 0 <= Total(s.gains, b.cycleStartMs)
    && 0 <= Total(s.routine, b.cycleStartMs) <= Total(s.attempts, b.cycleStartMs)
    && FlightCost(s.flights) <= c.maxSolPerCycle
    && b.cycleSpend + FlightCost(s.flights) <= c.maxSolPerCycle + Total(s.gains, b.cycleStartMs)
    && b.cycleTxCount + |s.flights| <= c.maxTxPerCycle
    && RoutineFlights(s.flights) <= c.maxTxPerCycle - c.Reserved()
    && Total(s.routine, b.cycleStartMs) + RoutineFlights(s.flights) <= c.maxTxPerCycle - c.Reserved()
    && |s.flights| <= c.maxTxPerCycle
  }

  ghost predicate CycleInv(c: Config, s: Ledger) {
    Exact(c, s) && Capped(c, s)
  }

  /** The ledger with its window opened for `now`, as every clock-reading call does first. */
  function Opened(c: Config, s: Ledger, now: int): Ledger {
    s.(l := s.l.(b := s.B().Roll(c, now)))
  }

  lemma OpenedInv(c: Config, s: Ledger, now: int)
    requires c.cycleWindowMs > 0 && now > 0 && CycleInv(c, s)
    ensures CycleInv(c, Opened(c, s, now))
    ensures Opened(c, s, now).B().cycleStartMs == StartAt(c, s.B().cycleStartMs, now)
  {
    var start := s.B().cycleStartMs;
    RollLog(c, start, s.attempts, now);
    RollLog(c, start, s.routine, now);
    RollLog(c, start, s.gains, now);
  }

  /** Same cycle and reservation fields, same history. */
  predicate SameCycle(b: Budget, b': Budget) {
    && b'.cycleSpend == b.cycleSpend && b'.cycleTxCount == b.cycleTxCount && b'.cycleStartMs == b.cycleStartMs
    && b'.reservedLamports == b.reservedLamports && b'.reservedTxCount == b.reservedTxCount
  }

  /** What the gate does to the cycle fields, and what admission has checked. */
  lemma GateFields(c: Config, b: Budget, cost: Num, lane: TxType, now: int)
    ensures var (b', admitted) := b.CanSpend(c, cost, lane, now);
            var r := b.Roll(c, now);
            if admitted then
              && BudgetLog.Ok(cost)
              && b'.cycleSpend == r.cycleSpend && b'.cycleTxCount == r.cycleTxCount
              && b'.cycleStartMs == r.cycleStartMs
              && b'.reservedLamports == r.reservedLamports + cost.v
              && b'.reservedTxCount == r.reservedTxCount + 1
              && r.cycleSpend + r.reservedLamports + cost.v <= c.maxSolPerCycle
              && b'.hourSpendSum + b'.reservedLamports <= c.maxSolPerHour
              && b'.daySpendSum + b'.reservedLamports <= c.maxSolPerDay
              && r.cycleTxCount + r.reservedTxCount + 1 <= c.EffectiveTxCap(lane)
            else SameCycle(b, b') || SameCycle(r, b')
  {
  }

  lemma RecordFields(c: Config, b: Budget, cost: nat, result: TxResult, now: int)
    requires b.reservedLamports >= cost && b.reservedTxCount >= 1
    ensures var b' := b.RecordTx(c, Finite(cost), result, now);
            var r := b.Roll(c, now);
            && b'.cycleSpend == r.cycleSpend + (if result == Drop then 0 else cost)
            && b'.cycleTxCount == r.cycleTxCount + 1
            && b'.cycleStartMs == r.cycleStartMs
            && b'.reservedLamports == r.reservedLamports - cost
            && b'.reservedTxCount == r.reservedTxCount - 1
  {
  }

  lemma AdjustFields(c: Config, b: Budget, estimated: Num, realized: Num, now: int)
    requires BudgetLog.Ok(estimated) && BudgetLog.Ok(realized)
    ensures var b' := b.Adjust(c, estimated, realized, now);
            var r := b.Roll(c, now);
            && b'.cycleSpend == Max(0, r.cycleSpend + realized.v - estimated.v)
            && b'.cycleTxCount == r.cycleTxCount
            && b'.cycleStartMs == r.cycleStartMs
            && b'.reservedLamports == r.reservedLamports
            && b'.reservedTxCount == r.reservedTxCount
  {
  }

  lemma ReconcileNext(c: Config, s: Ledger, act: Act, estimated: nat, realized: nat, call: BudgetLog.Call, s': Ledger)
    requires act.what == Reconcile(Finite(estimated), Finite(realized)) && s' == Next(c, s, act)
    requires call == BudgetLog.Call(act.now, BudgetLog.Adjust(Finite(estimated), Finite(realized)))
    ensures s'.l == BudgetLog.Step(c, s.l, call)
    ensures s'.refunds == s.refunds + [Stamped(act.now, Max(0, estimated - realized))]
    ensures s'.gains == s.gains + [Stamped(act.now, Max(0, realized - estimated))]
    ensures s'.booked == s.booked && s'.attempts == s.attempts && s'.routine == s.routine && s'.flights == s.flights
  {
    Corrects(s, act.now, estimated, realized, s.Corrected(act.now, Finite(estimated), Finite(realized)));
  }

  lemma Corrects(s: Ledger, now: int, estimated: nat, realized: nat, s': Ledger)
    requires s' == s.Corrected(now, Finite(estimated), Finite(realized))
    ensures s' == s.(gains := s.gains + [Stamped(now, Max(0, realized - estimated))],
                     refunds := s.refunds + [Stamped(now, Max(0, estimated - realized))])
  {
  }

  /** Refunds only accumulate. */
  lemma NextRefunds(c: Config, s: Ledger, act: Act, refunds: seq<Stamped<int>>)
    requires refunds == Next(c, s, act).refunds
    ensures refunds == s.refunds || exists e :: refunds == s.refunds + [e] && e.what >= 0
  {
  }

  /** CycleInv speaks of these fields only. */
  lemma SameCycleInv(c: Config, s: Ledger, s': Ledger)
    requires CycleInv(c, s) && SameCycle(s.B(), s'.B()) && s'.flights == s.flights
    requires s'.attempts == s.attempts && s'.routine == s.routine && s'.gains == s.gains
    ensures CycleInv(c, s')
  {
  }

  lemma SpendInv(c: Config, s: Ledger, now: int, cost: Num, lane: TxType)
    requires c.cycleWindowMs > 0 && now > 0 && CycleInv(c, s)
    ensures CycleInv(c, Next(c, s, Act(now, Spend(cost, lane))))
  {
    var s' := Next(c, s, Act(now, Spend(cost, lane)));
    GateFields(c, s.B(), cost, lane, now);
    OpenedInv(c, s, now);
    var o := Opened(c, s, now);
    if s.B().CanSpend(c, cost, lane, now).1 {
      var f := Flight(cost.v, lane);
      FlightsAppend(s.flights, [f]);
      assert FlightCost([f]) == cost.v && RoutineFlights([f]) == Routine(lane);
      RoutineAtMostAll(s.flights);
    } else if SameCycle(s.B(), s'.B()) {
      SameCycleInv(c, s, s');
    } else {
      SameCycleInv(c, o, s');
    }
  }

  /** What a settled attempt leaves of the opened ledger. */
  lemma SettleFields(c: Config, s: Ledger, now: int, i: nat, result: TxResult, s': Ledger)
    requires i < |s.flights| && s.B().reservedLamports >= s.flights[i].cost && s.B().reservedTxCount >= 1
    requires s' == Next(c, s, Act(now, Settle(i, result)))
    ensures var o, f := Opened(c, s, now), s.flights[i];
            && s'.B().cycleSpend == o.B().cycleSpend + (if result == Drop then 0 else f.cost)
            && s'.B().cycleTxCount == o.B().cycleTxCount + 1
            && s'.B().cycleStartMs == o.B().cycleStartMs
            && s'.B().reservedLamports == o.B().reservedLamports - f.cost
            && s'.B().reservedTxCount == o.B().reservedTxCount - 1
            && s'.flights == Without(s.flights, i) && s'.gains == s.gains && s'.refunds == s.refunds
            && s'.booked == (if result == Drop then s.booked else s.booked + [Stamped(now, f.cost)])
            && s'.attempts == s.attempts + [Stamped(now, 1)]
            && s'.routine == s.routine + [Stamped(now, Routine(f.lane))]
  {
    RecordFields(c, s.B(), s.flights[i].cost, result, now);
  }

  lemma SettledInv(c: Config, o: Ledger, now: int, i: nat, booked: nat, s': Ledger)
    requires c.cycleWindowMs > 0 && CycleInv(c, o) && i < |o.flights| && booked <= o.flights[i].cost
    requires 0 < o.B().cycleStartMs <= now < o.B().cycleStartMs + c.cycleWindowMs
    requires s'.B().cycleSpend == o.B().cycleSpend + booked && s'.B().cycleTxCount == o.B().cycleTxCount + 1
    requires s'.B().cycleStartMs == o.B().cycleStartMs
    requires s'.B().reservedLamports == o.B().reservedLamports - o.flights[i].cost
    requires s'.B().reservedTxCount == o.B().reservedTxCount - 1
    requires s'.flights == Without(o.flights, i) && s'.gains == o.gains
    requires s'.attempts == o.attempts + [Stamped(now, 1)]
    requires s'.routine == o.routine + [Stamped(now, Routine(o.flights[i].lane))]
    ensures CycleInv(c, s')
  {
    FlightRemoved(o.flights, i);
    PushLog(c, o.B().cycleStartMs, o.attempts, now, 1);
    PushLog(c, o.B().cycleStartMs, o.routine, now, Routine(o.flights[i].lane));
  }

  lemma SettleInv(c: Config, s: Ledger, now: int, i: nat, result: TxResult)
    requires c.cycleWindowMs > 0 && s.B().cycleStartMs <= now && now > 0 && CycleInv(c, s) && i < |s.flights|
    ensures CycleInv(c, Next(c, s, Act(now, Settle(i, result))))
  {
    var s' := Next(c, s, Act(now, Settle(i, result)));
    FlightRemoved(s.flights, i);
    SettleFields(c, s, now, i, result, s');
    OpenedInv(c, s, now);
    SettledInv(c, Opened(c, s, now), now, i, if result == Drop then 0 else s.flights[i].cost, s');
  }

  lemma CorrectedInv(c: Config, o: Ledger, now: int, estimated: nat, realized: nat, s': Ledger)
    requires c.cycleWindowMs > 0 && CycleInv(c, o)
    requires 0 < o.B().cycleStartMs <= now < o.B().cycleStartMs + c.cycleWindowMs
    requires s'.B().cycleSpend == Max(0, o.B().cycleSpend + realized - estimated)
    requires s'.B().cycleTxCount == o.B().cycleTxCount && s'.B().cycleStartMs == o.B().cycleStartMs
    requires s'.B().reservedLamports == o.B().reservedLamports && s'.B().reservedTxCount == o.B().reservedTxCount
    requires s'.flights == o.flights && s'.attempts == o.attempts && s'.routine == o.routine
    requires s'.gains == o.gains + [Stamped(now, Max(0, realized - estimated))]
    ensures CycleInv(c, s')
  {
    PushLog(c, o.B().cycleStartMs, o.gains, now, Max(0, realized - estimated));
  }

  lemma ReconcileInv(c: Config, s: Ledger, now: int, estimated: nat, realized: nat, act: Act, s': Ledger)
    requires c.cycleWindowMs > 0 && s.B().cycleStartMs <= now && now > 0 && CycleInv(c, s)
    requires act == Act(now, Reconcile(Finite(estimated), Finite(realized))) && s' == Next(c, s, act)
    ensures CycleInv(c, s')
  {
    ReconcileNext(c, s, act, estimated, realized,
                  BudgetLog.Call(now, BudgetLog.Adjust(Finite(estimated), Finite(realized))), s');
    AdjustFields(c, s.B(), Finite(estimated), Finite(realized), now);
    OpenedInv(c, s, now);
    CorrectedInv(c, Opened(c, s, now), now, estimated, realized, s');
  }

  /** Acts that leave the cycle as it is, or only open its window. */
  lemma QuietInv(c: Config, s: Ledger, act: Act, s': Ledger)
    requires c.cycleWindowMs > 0 && act.now > 0 && CycleInv(c, s) && s' == Next(c, s, act)
    requires match act.what
             case Peek => true
             case HaltManually => true
             case Resume => true
             case Reconcile(estimated, realized) => !BudgetLog.Ok(estimated) || !BudgetLog.Ok(realized)
             case Settle(i, _) => i >= |s.flights|
             case _ => false
    ensures CycleInv(c, s')
  {
    if act.what.Peek? {
      OpenedInv(c, s, act.now);
      SameCycleInv(c, Opened(c, s, act.now), s');
    } else {
      SameCycleInv(c, s, s');
    }
  }

  lemma NextInv(c: Config, s: Ledger, act: Act)
    requires c.cycleWindowMs > 0 && s.B().cycleStartMs <= act.now && act.now > 0 && CycleInv(c, s)
    ensures CycleInv(c, Next(c, s, act))
  {
    var what := act.what;
    if what.Spend? {
      SpendInv(c, s, act.now, what.cost, what.lane);
    } else if what.Settle? && what.i < |s.flights| {
      SettleInv(c, s, act.now, what.i, what.result);
    } else if what.Reconcile? && BudgetLog.Ok(what.estimated) && BudgetLog.Ok(what.realized) {
      ReconcileInv(c, s, act.now, what.estimated.v, what.realized.v, act, Next(c, s, act));
    } else {
      QuietInv(c, s, act, Next(c, s, act));
    }
  }

  lemma StartMoves(c: Config, s: Ledger, act: Act)
    requires s.B().cycleStartMs <= act.now
    ensures Next(c, s, act).B().cycleStartMs <= act.now
  {
    match act.what
    case Spend(cost, lane) => GateFields(c, s.B(), cost, lane, act.now);
    case _ =>
  }

  lemma {:induction false} RunInv(c: Config, acts: seq<Act>)
    requires c.cycleWindowMs > 0 && Clocked(acts)
    ensures CycleInv(c, Run(c, acts)) && Run(c, acts).B().cycleStartMs <= LastNow(acts)
  {
    if acts == [] {
      EmptyInv(c);
    } else {
      var front, act := acts[..|acts| - 1], acts[|acts| - 1];
      RunInv(c, front);
      NextInv(c, Run(c, front), act);
      StartMoves(c, Run(c, front), act);
    }
  }

  lemma EmptyInv(c: Config)
    ensures CycleInv(c, Empty)
  {
  }

  /**
   Reservations are exact and the per-cycle caps hold after any interleaving:
   booked plus reserved exceeds the spend cap by at most what reconciliation
   added in the open window, and the attempt count never exceeds its cap.
   */
  lemma CycleCapsHold(c: Config, acts: seq<Act>)
    requires c.cycleWindowMs > 0 && Clocked(acts)
    ensures var s := Run(c, acts);
            && s.B().reservedLamports == FlightCost(s.flights)
            && s.B().reservedTxCount == |s.flights|
            && s.B().cycleSpend + s.B().reservedLamports
                 <= c.maxSolPerCycle + Total(s.gains, s.B().cycleStartMs)
            && s.B().cycleTxCount == Total(s.attempts, s.B().cycleStartMs)
            && s.B().cycleTxCount + s.B().reservedTxCount <= c.maxTxPerCycle
  {
    RunInv(c, acts);
  }

  /** Attempts of the routine lane in the open window, settled and in flight. */
  function RoutineAttempts(s: Ledger): int {
    Total(s.routine, s.B().cycleStartMs) + RoutineFlights(s.flights)
  }

  function CriticalAttempts(s: Ledger): int {
    Total(s.attempts, s.B().cycleStartMs) + |s.flights| - RoutineAttempts(s)
  }

  /** A flood of cranks never reaches into the reserve, for any configured reservation. */
  lemma RoutineLeavesTheReserve(c: Config, acts: seq<Act>)
    requires c.cycleWindowMs > 0 && Clocked(acts)
    ensures RoutineAttempts(Run(c, acts)) <= BudgetLog.LaneCap(c, Crank)
  {
    RunInv(c, acts);
    BudgetLog.LaneCapExactly(c, Crank);
  }

  /**
   While liquidation, oracle and adl have used fewer than the slots a crank must leave in the
   window that `now` falls in, neither count check of the gate refuses a send of theirs.
   */
  lemma CriticalSlotsAreKept(c: Config, acts: seq<Act>, now: int, lane: TxType)
    requires c.cycleWindowMs > 0 && Clocked(acts) && now > 0 && LastNow(acts) <= now && lane != Crank
    requires CriticalAttempts(Opened(c, Run(c, acts), now)) < c.maxTxPerCycle - BudgetLog.LaneCap(c, Crank)
    ensures var b := Opened(c, Run(c, acts), now).B();
            && b.cycleTxCount + 1 <= c.EffectiveTxCap(lane)
            && b.cycleTxCount + b.reservedTxCount + 1 <= c.EffectiveTxCap(lane) == c.maxTxPerCycle
  {
    BudgetLog.LaneCapExactly(c, lane);
    RunInv(c, acts);
    OpenedInv(c, Run(c, acts), now);
  }
}
