/** The tumbling-window bound is reached: two cycle caps within one window's length. */
module BudgetStraddle {
  import opened Prelude
  import opened Events
  import opened BudgetState
  import opened BudgetLedger
  import opened BudgetRent
  import BudgetLog
  import BudgetTumbling

  /**
   A send admitted when the first window opens settles at its end, the next one is admitted
   and settles when the second window opens.
   */
  function Straddle(w: int, cost: nat): seq<Act> {
    [Act(1, Spend(Finite(cost), Crank)), Act(w, Settle(0, Success)),
     Act(w + 1, Spend(Finite(cost), Crank)), Act(w + 1, Settle(0, Success))]
  }

  lemma CalmLater(c: Config, l: BudgetLog.Logged, spent: int, cost: int, slots: int, clock: int, now: int)
    requires Calm(c, l, spent, cost, slots, clock) && clock <= now
    ensures Calm(c, l, spent, cost, slots, now)
  {
  }

  /** A send admitted at `from` in a fresh window and settled at `to` in the same window. */
  lemma OneSend(c: Config, s: Ledger, spent: nat, cost: nat, clock: int, from: int, to: int, spend: Act, settle: Act)
    returns (s2: Ledger)
    requires Calm(c, s.l, spent, 0, 0, clock) && s.flights == [] && clock <= from && 0 < from <= to <= HOUR_MS
    requires s.B().cycleStartMs == 0 || from - s.B().cycleStartMs >= c.cycleWindowMs
    requires to < from + c.cycleWindowMs && c.txSuccessRateThreshold <= 1.0 && c.maxTxPerCycle >= 1
    requires cost <= c.maxSolPerCycle && spent + cost <= c.maxSolPerHour && spent + cost <= c.maxSolPerDay
    requires spend == Act(from, Spend(Finite(cost), Crank)) && settle == Act(to, Settle(0, Success))
    ensures s2 == Next(c, Next(c, s, spend), settle)
    ensures Calm(c, s2.l, spent + cost, 0, 0, to) && s2.flights == [] && s2.B().cycleStartMs == from
    ensures s2.booked == s.booked + [Stamped(to, cost)] && s2.refunds == s.refunds
  {
    var reserve := BudgetLog.Call(from, BudgetLog.CanSpend(Finite(cost), Crank));
    var confirm := BudgetLog.Call(to, BudgetLog.RecordTx(Finite(cost), Success));
    GateOpens(c, s.l, spent, cost, clock, from);
    var s1 := Next(c, s, spend);
    SpendNext(c, s, cost, from, s1);
    Reserves(c, s.l, spent, cost, clock, reserve, s1.l);
    CalmLater(c, s1.l, spent, cost, 1, from, to);
    s2 := Next(c, s1, settle);
    SettleNext(c, s1, cost, to, s2);
    Confirms(c, s1.l, spent, cost, confirm, s2.l);
  }

  lemma TwoBooked(w: int, cap: nat, booked: seq<Stamped<int>>)
    requires w > 1 && booked == [] + [Stamped(w, cap)] + [Stamped(w + 1, cap)]
    ensures BudgetTumbling.Span(booked, w, w) == 2 * cap
  {
    BetweenPush([], Stamped(w, cap), w, w + w);
    BetweenPush([] + [Stamped(w, cap)], Stamped(w + 1, cap), w, w + w);
  }

  /** With nothing handed back, one window's length can book exactly twice the cycle cap. */
  lemma TumbleBoundIsReached(c: Config) returns (acts: seq<Act>, s: Ledger)
    requires 1 < c.cycleWindowMs < HOUR_MS && c.txSuccessRateThreshold <= 1.0 && c.maxTxPerCycle >= 1
    requires 2 * c.maxSolPerCycle <= c.maxSolPerHour && 2 * c.maxSolPerCycle <= c.maxSolPerDay
    ensures acts == Straddle(c.cycleWindowMs, c.maxSolPerCycle) && Clocked(acts) && s == Run(c, acts)
    ensures s.refunds == []
    ensures BudgetTumbling.Span(s.booked, c.cycleWindowMs, c.cycleWindowMs) == 2 * c.maxSolPerCycle
  {
    var w, cap := c.cycleWindowMs, c.maxSolPerCycle;
    acts := Straddle(w, cap);
    StraddleClocked(w, cap);
    s := BothSent(c, w, cap, Act(1, Spend(Finite(cap), Crank)), Act(w, Settle(0, Success)),
                  Act(w + 1, Spend(Finite(cap), Crank)), Act(w + 1, Settle(0, Success)));
    TwoBooked(w, cap, s.booked);
  }

  lemma StraddleClocked(w: int, cap: nat)
    requires w > 0
    ensures Clocked(Straddle(w, cap))
    ensures Straddle(w, cap) == [Act(1, Spend(Finite(cap), Crank)), Act(w, Settle(0, Success))]
                                + [Act(w + 1, Spend(Finite(cap), Crank)), Act(w + 1, Settle(0, Success))]
  {
  }

  lemma BothSent(c: Config, w: int, cap: nat, a0: Act, a1: Act, a2: Act, a3: Act) returns (s: Ledger)
    requires 1 < w == c.cycleWindowMs < HOUR_MS && c.txSuccessRateThreshold <= 1.0 && c.maxTxPerCycle >= 1
    requires cap == c.maxSolPerCycle && 2 * cap <= c.maxSolPerHour && 2 * cap <= c.maxSolPerDay
    requires a0 == Act(1, Spend(Finite(cap), Crank)) && a1 == Act(w, Settle(0, Success))
    requires a2 == Act(w + 1, Spend(Finite(cap), Crank)) && a3 == Act(w + 1, Settle(0, Success))
    ensures s == Run(c, [a0, a1] + [a2, a3]) && s.refunds == []
    ensures s.booked == [] + [Stamped(w, cap)] + [Stamped(w + 1, cap)]
  {
    NothingYet(c);
    var s2 := OneSend(c, Empty, 0, cap, 0, 1, w, a0, a1);
    s := OneSend(c, s2, cap, cap, w, w + 1, w + 1, a2, a3);
    RunTwo(c, [], a0, a1, Empty);
    assert [] + [a0, a1] == [a0, a1];
    RunTwo(c, [a0, a1], a2, a3, s2);
  }

  lemma NothingYet(c: Config)
    ensures Calm(c, Empty.l, 0, 0, 0, 0) && Empty.B().cycleStartMs == 0
  {
  }
}
