/** What the budget learns from each way a send can end, said path by path. */
module SendRecords {
  import opened Prelude
  import opened Events
  import opened BudgetState
  import opened BudgetLedger
  import BudgetLog
  import K = KeeperSend

  predicate NothingBooked(s: Ledger, s': Ledger) {
    && s'.booked == s.booked && s'.l.hourLog == s.l.hourLog && s'.l.dayLog == s.l.dayLog
    && s'.l.txLog == s.l.txLog
  }

  /** The cost is spent, and these outcomes count towards the success rate. */
  predicate Booked(s: Ledger, s': Ledger, cost: int, now: int, outcomes: seq<Stamped<bool>>) {
    && s'.booked == s.booked + [Stamped(now, cost)]
    && s'.l.hourLog == s.l.hourLog + [Stamped(now, cost)] && s'.l.dayLog == s.l.dayLog + [Stamped(now, cost)]
    && s'.l.txLog == s.l.txLog + outcomes
  }

  /** So many lamports and so many more sends are reserved, and so many more attempts were made. */
  predicate Holds(s: Ledger, s': Ledger, lamports: int, sends: int, attempts: seq<Stamped<int>>) {
    && s'.B().reservedLamports == s.B().reservedLamports + lamports
    && s'.B().reservedTxCount == s.B().reservedTxCount + sends
    && s'.attempts == s.attempts + attempts
  }

  lemma Spends(c: Config, s: Ledger, cost: nat, lane: TxType, now: int, s': Ledger)
    requires s.B().CanSpend(c, Finite(cost), lane, now).1 && s' == Next(c, s, Act(now, Spend(Finite(cost), lane)))
    ensures NothingBooked(s, s') && Holds(s, s', cost, 1, []) && s'.flights == s.flights + [Flight(cost, lane)]
  {
    GateFields(c, s.B(), Finite(cost), lane, now);
    assert s.attempts + [] == s.attempts && s.l.txLog + [] == s.l.txLog;
    assert s.l.hourLog + [] == s.l.hourLog && s.l.dayLog + [] == s.l.dayLog;
  }

  function Outcomes(result: TxResult, now: int): seq<Stamped<bool>> {
    match result
    case Success => [Stamped(now, true)]
    case Fail => [Stamped(now, false)]
    case Reverted => []
    case Drop => []
  }

  lemma Settles(c: Config, s: Ledger, i: nat, result: TxResult, now: int, s': Ledger)
    requires i < |s.flights| && s' == Next(c, s, Act(now, Settle(i, result)))
    requires s.B().reservedLamports >= s.flights[i].cost && s.B().reservedTxCount >= 1
    ensures Holds(s, s', 0 - s.flights[i].cost, -1, [Stamped(now, 1)])
    ensures if result == Drop then NothingBooked(s, s')
            else Booked(s, s', s.flights[i].cost, now, Outcomes(result, now))
  {
    RecordFields(c, s.B(), s.flights[i].cost, result, now);
    assert s.l.txLog + [] == s.l.txLog;
    assert s.l.hourLog + [] == s.l.hourLog && s.l.dayLog + [] == s.l.dayLog;
  }

  /** An admitted send that settles at once: the reservation is taken and returned. */
  lemma SettlesAtOnce(c: Config, s: Ledger, cost: nat, lane: TxType, result: TxResult, now: int, s1: Ledger, s2: Ledger)
    requires s.B().CanSpend(c, Finite(cost), lane, now).1
    requires s.B().reservedLamports >= 0 && s.B().reservedTxCount >= 0
    requires s1 == Next(c, s, Act(now, Spend(Finite(cost), lane)))
    requires s2 == Next(c, s1, Act(now, Settle(|s.flights|, result)))
    ensures Holds(s, s2, 0, 0, [Stamped(now, 1)])
    ensures if result == Drop then NothingBooked(s, s2) else Booked(s, s2, cost, now, Outcomes(result, now))
  {
    Spends(c, s, cost, lane, now, s1);
    Settles(c, s1, |s.flights|, result, now, s2);
    assert s.attempts + [] == s.attempts;
  }

  lemma Refuses(c: Config, s: Ledger, cost: Num, lane: TxType, now: int, s1: Ledger, s2: Ledger)
    requires !s.B().CanSpend(c, cost, lane, now).1
    requires s1 == Next(c, s, Act(now, Spend(cost, lane))) && s2 == Next(c, s1, Act(now, Peek))
    ensures NothingBooked(s, s2) && Holds(s, s2, 0, 0, []) && s2.flights == s.flights
  {
    GateFields(c, s.B(), cost, lane, now);
    assert s.attempts + [] == s.attempts && s.l.txLog + [] == s.l.txLog;
    assert s.l.hourLog + [] == s.l.hourLog && s.l.dayLog + [] == s.l.dayLog;
  }

  // ---------- every run ----------

  lemma RunReserves(c: Config, run: seq<K.World>, moves: seq<(K.Move, int)>, j: nat)
    requires c.cycleWindowMs > 0 && K.IsRun(c, run, moves) && j < |run|
    ensures run[j].ledger.B().reservedLamports == FlightCost(run[j].ledger.flights)
    ensures run[j].ledger.B().reservedTxCount == |run[j].ledger.flights|
  {
    K.EverySendRecordsOnce(c, run, moves, j);
    CycleCapsHold(c, run[j].acts);
  }

  /**
   How an admitted send that never reached the wire ends, in every run. Losing leadership
   meanwhile, or an error, books nothing, logs no outcome, returns the reservation and counts one
   attempt; a dry run books its cost and one success; otherwise the send starts, reserved.
   */
  lemma AbortsLeaveNoTrace(c: Config, run: seq<K.World>, moves: seq<(K.Move, int)>, j: nat, cost: nat)
    requires c.cycleWindowMs > 0 && K.IsRun(c, run, moves) && j < |moves|
    requires moves[j].0.Gate? && moves[j].0.cost == Finite(cost)
    requires run[j].ledger.B().CanSpend(c, Finite(cost), run[j].sends[moves[j].0.k].lane, moves[j].1).1
    ensures var s, s', now, send := run[j].ledger, run[j + 1].ledger, moves[j].1, run[j + 1].sends[moves[j].0.k];
            match moves[j].0.path
            case LostLeadership => NothingBooked(s, s') && Holds(s, s', 0, 0, [Stamped(now, 1)]) && send.phase == K.Done
            case Threw => NothingBooked(s, s') && Holds(s, s', 0, 0, [Stamped(now, 1)]) && send.phase == K.Done
            case DryRun =>
              && Booked(s, s', cost, now, [Stamped(now, true)]) && Holds(s, s', 0, 0, [Stamped(now, 1)])
              && send.phase == K.Done
            case Start =>
              && NothingBooked(s, s') && Holds(s, s', cost, 1, [])
              && send.phase == K.Sending && send.cost == cost
  {
    var s, now, lane := run[j].ledger, moves[j].1, run[j].sends[moves[j].0.k].lane;
    RunReserves(c, run, moves, j);
    var s1 := Next(c, s, Act(now, Spend(Finite(cost), lane)));
    match moves[j].0.path
    case LostLeadership => SettlesAtOnce(c, s, cost, lane, Drop, now, s1, run[j + 1].ledger);
    case Threw => SettlesAtOnce(c, s, cost, lane, Drop, now, s1, run[j + 1].ledger);
    case DryRun => SettlesAtOnce(c, s, cost, lane, Success, now, s1, run[j + 1].ledger);
    case Start => Spends(c, s, cost, lane, now, s1);
  }

  /** A refused send leaves the books, the reservations and the attempts as they were, in every run. */
  lemma RefusalsLeaveNoTrace(c: Config, run: seq<K.World>, moves: seq<(K.Move, int)>, j: nat)
    requires K.IsRun(c, run, moves) && j < |moves| && moves[j].0.Gate?
    requires !run[j].ledger.B().CanSpend(c, moves[j].0.cost, run[j].sends[moves[j].0.k].lane, moves[j].1).1
    ensures NothingBooked(run[j].ledger, run[j + 1].ledger) && Holds(run[j].ledger, run[j + 1].ledger, 0, 0, [])
    ensures run[j + 1].sends[moves[j].0.k].phase == K.Done
  {
    var s, m, now := run[j].ledger, moves[j].0, moves[j].1;
    Refuses(c, s, m.cost, run[j].sends[m.k].lane, now,
            Next(c, s, Act(now, Spend(m.cost, run[j].sends[m.k].lane))), run[j + 1].ledger);
  }

  /**
   How a send on the wire ends, in every run: its cost is booked and its reservation returned;
   a confirmation counts as a success, an error as a failure to land unless its message says
   that the transaction failed on chain, which counts as neither.
   */
  lemma LandingsAreBooked(c: Config, run: seq<K.World>, moves: seq<(K.Move, int)>, j: nat)
    requires c.cycleWindowMs > 0 && K.IsRun(c, run, moves) && j < |moves| && moves[j].0.Land?
    ensures var s, s', now, cost := run[j].ledger, run[j + 1].ledger, moves[j].1, run[j].sends[moves[j].0.k].cost;
            && Holds(s, s', 0 - cost, -1, [Stamped(now, 1)])
            && match moves[j].0.outcome
               case Confirmed => Booked(s, s', cost, now, [Stamped(now, true)])
               case Error(message) =>
                 Booked(s, s', cost, now, if "Transaction failed:" <= message then [] else [Stamped(now, false)])
  {
    var s, m, now := run[j].ledger, moves[j].0, moves[j].1;
    RunReserves(c, run, moves, j);
    FlightRemoved(s.flights, m.i);
    Settles(c, s, m.i, K.LandedAs(m.outcome), now, run[j + 1].ledger);
  }
}
