/**
 Sliding totals over the full history: what the hour and day caps bound once the caches
 are forgotten, and what reconciliation hands back.
 */
module BudgetSliding {
  import opened Prelude
  import opened Events
  import opened BudgetState
  import opened BudgetLedger
  import BudgetLog

  /** Lamports logged with stamps in [t - span, t]. */
  function Slid(log: seq<Stamped<int>>, span: int, t: int): int {
    Between(log, t - span, t + 1)
  }

  predicate SlidAt(log: seq<Stamped<int>>, span: int, cap: int, t: int) {
    Slid(log, span, t) <= cap
  }

  ghost predicate SlidBound(log: seq<Stamped<int>>, span: int, cap: int) {
    forall t :: SlidAt(log, span, cap, t)
  }

  predicate BackedAt(log: seq<Stamped<int>>, booked: seq<Stamped<int>>, refunds: seq<Stamped<int>>, a: int, b: int) {
    Between(booked, a, b) <= Between(log, a, b) + Between(refunds, a, b)
  }

  /** In every interval the queue's log accounts for what was booked, except for what was refunded. */
  ghost predicate Backed(log: seq<Stamped<int>>, booked: seq<Stamped<int>>, refunds: seq<Stamped<int>>) {
    forall a, b :: BackedAt(log, booked, refunds, a, b)
  }

  lemma BackedBook(log: seq<Stamped<int>>, booked: seq<Stamped<int>>, refunds: seq<Stamped<int>>, e: Stamped<int>)
    requires Backed(log, booked, refunds)
    ensures Backed(log + [e], booked + [e], refunds)
  {
    forall a, b ensures BackedAt(log + [e], booked + [e], refunds, a, b) {
      BetweenPush(booked, e, a, b);
      BetweenPush(log, e, a, b);
      assert BackedAt(log, booked, refunds, a, b);
    }
  }

  lemma BackedAdjust(log: seq<Stamped<int>>, booked: seq<Stamped<int>>, refunds: seq<Stamped<int>>,
                     pushed: seq<Stamped<int>>, now: int, refund: nat)
    requires Backed(log, booked, refunds)
    requires Correction(pushed, now, refund)
    ensures Backed(log + pushed, booked, refunds + [Stamped(now, refund)])
  {
    forall a, b ensures BackedAt(log + pushed, booked, refunds + [Stamped(now, refund)], a, b) {
      BetweenPush(refunds, Stamped(now, refund), a, b);
      assert BackedAt(log, booked, refunds, a, b);
      if pushed == [] {
        assert log + pushed == log;
      } else {
        assert pushed == [pushed[0]];
        BetweenPush(log, pushed[0], a, b);
      }
    }
  }

  /** From `now` on, with nothing logged later, no sliding interval is worth more. */
  lemma LaterSlid(log: seq<Stamped<int>>, span: int, now: int, t: int)
    requires NonNegative(log) && UpTo(log, now) && now <= t
    ensures Slid(log, span, t) <= Slid(log, span, now)
  {
    WithinMonotone(log, t - span, t + 1, now - span, now + 1);
  }

  /** One sliding cap: what was booked, and what is still in flight from now on. */
  ghost predicate SlidingInv(log: seq<Stamped<int>>, booked: seq<Stamped<int>>, refunds: seq<Stamped<int>>,
                             flying: int, span: int, cap: int, now: int)
  {
    && Backed(log, booked, refunds)
    && SlidBound(booked, span, cap)
    && Slid(booked, span, now) + flying <= cap
  }

  lemma SlidingLater(log: seq<Stamped<int>>, booked: seq<Stamped<int>>, refunds: seq<Stamped<int>>,
                     flying: int, span: int, cap: int, clock: int, now: int, less: int)
    requires SlidingInv(log, booked, refunds, flying, span, cap, clock) && clock <= now && less <= flying
    requires NonNegative(booked) && UpTo(booked, clock)
    ensures SlidingInv(log, booked, refunds, less, span, cap, now)
  {
    LaterSlid(booked, span, clock, now);
  }

  /** Admission: the gate has just compared the queue's sum, reservations included, with the cap. */
  lemma SlidingAdmit(log: seq<Stamped<int>>, booked: seq<Stamped<int>>, refunds: seq<Stamped<int>>,
                     flying: int, flying': int, sum: int, span: int, cap: int, back: int, clock: int, now: int)
    requires SlidingInv(log, booked, refunds, flying, span, cap + back, clock)
    requires UpTo(log, now) && sum == Total(log, now - span) && sum + flying' <= cap
    requires SlidBound(refunds, span, back)
    ensures SlidingInv(log, booked, refunds, flying', span, cap + back, now)
  {
    WithinIsSince(log, now - span, now + 1);
    assert BackedAt(log, booked, refunds, now - span, now + 1);
    assert SlidAt(refunds, span, back, now);
  }

  lemma PushSlid(log: seq<Stamped<int>>, e: Stamped<int>, span: int, cap: int)
    requires SlidBound(log, span, cap) && Slid(log + [e], span, e.ts) <= cap
    requires NonNegative(log + [e]) && UpTo(log + [e], e.ts)
    ensures SlidBound(log + [e], span, cap)
  {
    forall t ensures SlidAt(log + [e], span, cap, t) {
      if t < e.ts {
        WithinSkips(log, e, t - span, t + 1);
        assert SlidAt(log, span, cap, t);
      } else {
        LaterSlid(log + [e], span, e.ts, t);
      }
    }
  }

  lemma SlidingBook(log: seq<Stamped<int>>, booked: seq<Stamped<int>>, refunds: seq<Stamped<int>>,
                    flying: int, span: int, cap: int, e: Stamped<int>)
    requires SlidingInv(log, booked, refunds, flying, span, cap, e.ts) && 0 <= e.what <= flying && span >= 0
    requires NonNegative(booked) && UpTo(booked, e.ts)
    ensures SlidingInv(log + [e], booked + [e], refunds, flying - e.what, span, cap, e.ts)
  {
    BackedBook(log, booked, refunds, e);
    BetweenPush(booked, e, e.ts - span, e.ts + 1);
    PushSlid(booked, e, span, cap);
  }

  // ---------- the ledger ----------

  /** What every interval of one span may hand back. */
  ghost predicate Refunded(s: Ledger, hourBack: int, dayBack: int) {
    SlidBound(s.refunds, HOUR_MS, hourBack) && SlidBound(s.refunds, DAY_MS, dayBack)
  }

  ghost predicate HourInv(c: Config, s: Ledger, back: int, now: int) {
    SlidingInv(s.l.hourLog, s.booked, s.refunds, FlightCost(s.flights), HOUR_MS, c.maxSolPerHour + back, now)
  }

  ghost predicate DayInv(c: Config, s: Ledger, back: int, now: int) {
    SlidingInv(s.l.dayLog, s.booked, s.refunds, FlightCost(s.flights), DAY_MS, c.maxSolPerDay + back, now)
  }

  ghost predicate Reserves(s: Ledger, now: int) {
    && s.B().reservedLamports == FlightCost(s.flights)
    && s.B().reservedTxCount == |s.flights|
    && NonNegative(s.booked) && UpTo(s.booked, now) && NonNegative(s.refunds)
  }

  ghost predicate DrainInv(c: Config, s: Ledger, hourBack: int, dayBack: int, now: int) {
    && BudgetLog.Inv(c, s.l, now) && Reserves(s, now)
    && HourInv(c, s, hourBack, now) && DayInv(c, s, dayBack, now)
  }

  lemma HourLater(c: Config, s: Ledger, hourBack: int, dayBack: int, clock: int, now: int, less: int)
    requires DrainInv(c, s, hourBack, dayBack, clock) && clock <= now && less <= FlightCost(s.flights)
    ensures SlidingInv(s.l.hourLog, s.booked, s.refunds, less, HOUR_MS, c.maxSolPerHour + hourBack, now)
    ensures SlidingInv(s.l.dayLog, s.booked, s.refunds, less, DAY_MS, c.maxSolPerDay + dayBack, now)
  {
    SlidingLater(s.l.hourLog, s.booked, s.refunds, FlightCost(s.flights),
                 HOUR_MS, c.maxSolPerHour + hourBack, clock, now, less);
    SlidingLater(s.l.dayLog, s.booked, s.refunds, FlightCost(s.flights),
                 DAY_MS, c.maxSolPerDay + dayBack, clock, now, less);
  }

  /** A queue pruned at `now` sums what its log holds within the span. */
  lemma SumIsTotal(c: Config, l: BudgetLog.Logged, now: int)
    requires BudgetLog.Inv(c, l, now) && l.prunedAt == now
    ensures l.b.hourSpendSum == Total(l.hourLog, now - HOUR_MS) && UpTo(l.hourLog, now)
    ensures l.b.daySpendSum == Total(l.dayLog, now - DAY_MS) && UpTo(l.dayLog, now)
  {
    BudgetLog.InvSumsAgree(c, l, now);
    BudgetLog.LogIsSorted(l.hourLog, now);
    BudgetLog.LogIsSorted(l.dayLog, now);
  }

  /** Both caps at an admission: the sums the gate compared are the logs' own. */
  lemma AdmitBoth(c: Config, s: Ledger, hourBack: int, dayBack: int, clock: int, now: int,
                  l': BudgetLog.Logged, flying: int)
    requires DrainInv(c, s, hourBack, dayBack, clock) && Refunded(s, hourBack, dayBack)
    requires BudgetLog.Inv(c, l', now) && l'.prunedAt == now
    requires l'.hourLog == s.l.hourLog && l'.dayLog == s.l.dayLog
    requires l'.b.hourSpendSum + flying <= c.maxSolPerHour && l'.b.daySpendSum + flying <= c.maxSolPerDay
    ensures SlidingInv(l'.hourLog, s.booked, s.refunds, flying, HOUR_MS, c.maxSolPerHour + hourBack, now)
    ensures SlidingInv(l'.dayLog, s.booked, s.refunds, flying, DAY_MS, c.maxSolPerDay + dayBack, now)
  {
    SumIsTotal(c, l', now);
    SlidingAdmit(l'.hourLog, s.booked, s.refunds, FlightCost(s.flights), flying, l'.b.hourSpendSum,
                 HOUR_MS, c.maxSolPerHour, hourBack, clock, now);
    SlidingAdmit(l'.dayLog, s.booked, s.refunds, FlightCost(s.flights), flying, l'.b.daySpendSum,
                 DAY_MS, c.maxSolPerDay, dayBack, clock, now);
  }

  /** A call that pushes nothing keeps the logs. */
  lemma QuietLog(c: Config, l: BudgetLog.Logged, clock: int, call: BudgetLog.Call)
    requires BudgetLog.Inv(c, l, clock) && clock <= call.now
    requires BudgetLog.SpendPushed(l.b.hourSpendSum, call) == BudgetLog.SpendPushed(l.b.daySpendSum, call) == []
    ensures var l' := BudgetLog.Step(c, l, call);
            BudgetLog.Inv(c, l', call.now) && l'.hourLog == l.hourLog && l'.dayLog == l.dayLog
  {
    BudgetLog.StepInv(c, l, clock, call);
    assert l.hourLog + [] == l.hourLog && l.dayLog + [] == l.dayLog;
  }

  /** Nothing was booked or handed back; what was reserved is still, or less of it. */
  lemma Unchanged(c: Config, s: Ledger, hourBack: int, dayBack: int, clock: int, now: int, s': Ledger)
    requires DrainInv(c, s, hourBack, dayBack, clock) && clock <= now
    requires BudgetLog.Inv(c, s'.l, now) && s'.l.hourLog == s.l.hourLog && s'.l.dayLog == s.l.dayLog
    requires s'.booked == s.booked && s'.refunds == s.refunds
    requires s'.B().reservedLamports == FlightCost(s'.flights) <= FlightCost(s.flights)
    requires s'.B().reservedTxCount == |s'.flights|
    ensures DrainInv(c, s', hourBack, dayBack, now)
  {
    HourLater(c, s, hourBack, dayBack, clock, now, FlightCost(s'.flights));
  }

  lemma GateReserves(c: Config, l: BudgetLog.Logged, now: int, cost: Num, lane: TxType, l': BudgetLog.Logged)
    requires l' == BudgetLog.Step(c, l, BudgetLog.Call(now, BudgetLog.CanSpend(cost, lane)))
    ensures if l.b.CanSpend(c, cost, lane, now).1 then
              && BudgetLog.Ok(cost) && l'.prunedAt == now
              && l'.b.reservedLamports == l.b.reservedLamports + cost.v
              && l'.b.reservedTxCount == l.b.reservedTxCount + 1
              && l'.b.hourSpendSum + l'.b.reservedLamports <= c.maxSolPerHour
              && l'.b.daySpendSum + l'.b.reservedLamports <= c.maxSolPerDay
            else l'.b.reservedLamports == l.b.reservedLamports && l'.b.reservedTxCount == l.b.reservedTxCount
  {
    GateFields(c, l.b, cost, lane, now);
  }

  lemma Admitted(c: Config, s: Ledger, hourBack: int, dayBack: int, clock: int, now: int, f: Flight, s': Ledger)
    requires DrainInv(c, s, hourBack, dayBack, clock) && Refunded(s, hourBack, dayBack) && clock <= now
    requires BudgetLog.Inv(c, s'.l, now) && s'.l.prunedAt == now
    requires s'.l.hourLog == s.l.hourLog && s'.l.dayLog == s.l.dayLog
    requires s'.booked == s.booked && s'.refunds == s.refunds && s'.flights == s.flights + [f]
    requires s'.B().reservedLamports == s.B().reservedLamports + f.cost
    requires s'.B().reservedTxCount == s.B().reservedTxCount + 1
    requires s'.B().hourSpendSum + s'.B().reservedLamports <= c.maxSolPerHour
    requires s'.B().daySpendSum + s'.B().reservedLamports <= c.maxSolPerDay
    ensures DrainInv(c, s', hourBack, dayBack, now)
  {
    FlightsAppend(s.flights, [f]);
    assert FlightCost([f]) == f.cost;
    AdmitBoth(c, s, hourBack, dayBack, clock, now, s'.l, FlightCost(s.flights) + f.cost);
  }

  lemma SpendDrain(c: Config, s: Ledger, hourBack: int, dayBack: int, clock: int, now: int,
                   cost: Num, lane: TxType, act: Act, s': Ledger)
    requires DrainInv(c, s, hourBack, dayBack, clock) && Refunded(s, hourBack, dayBack) && clock <= now
    requires act == Act(now, Spend(cost, lane)) && s' == Next(c, s, act)
    ensures DrainInv(c, s', hourBack, dayBack, now)
  {
    QuietLog(c, s.l, clock, BudgetLog.Call(now, BudgetLog.CanSpend(cost, lane)));
    GateReserves(c, s.l, now, cost, lane, s'.l);
    if s.B().CanSpend(c, cost, lane, now).1 {
      Admitted(c, s, hourBack, dayBack, clock, now, Flight(cost.v, lane), s');
    } else {
      Unchanged(c, s, hourBack, dayBack, clock, now, s');
    }
  }

  lemma RecordReserves(c: Config, l: BudgetLog.Logged, now: int, cost: nat, result: TxResult, l': BudgetLog.Logged)
    requires l.b.reservedLamports >= cost && l.b.reservedTxCount >= 1
    requires l' == BudgetLog.Step(c, l, BudgetLog.Call(now, BudgetLog.RecordTx(Finite(cost), result)))
    ensures l'.b.reservedLamports == l.b.reservedLamports - cost && l'.b.reservedTxCount == l.b.reservedTxCount - 1
  {
    RecordFields(c, l.b, cost, result, now);
  }

  lemma DropDrain(c: Config, s: Ledger, hourBack: int, dayBack: int, clock: int, now: int, i: nat, act: Act, s': Ledger)
    requires DrainInv(c, s, hourBack, dayBack, clock) && clock <= now && i < |s.flights|
    requires act == Act(now, Settle(i, Drop)) && s' == Next(c, s, act)
    ensures DrainInv(c, s', hourBack, dayBack, now)
  {
    FlightRemoved(s.flights, i);
    QuietLog(c, s.l, clock, BudgetLog.Call(now, BudgetLog.RecordTx(Finite(s.flights[i].cost), Drop)));
    RecordReserves(c, s.l, now, s.flights[i].cost, Drop, s'.l);
    Unchanged(c, s, hourBack, dayBack, clock, now, s');
  }

  lemma BookBoth(c: Config, s: Ledger, hourBack: int, dayBack: int, clock: int, e: Stamped<int>)
    requires DrainInv(c, s, hourBack, dayBack, clock) && clock <= e.ts && 0 <= e.what <= FlightCost(s.flights)
    ensures SlidingInv(s.l.hourLog + [e], s.booked + [e], s.refunds, FlightCost(s.flights) - e.what,
                       HOUR_MS, c.maxSolPerHour + hourBack, e.ts)
    ensures SlidingInv(s.l.dayLog + [e], s.booked + [e], s.refunds, FlightCost(s.flights) - e.what,
                       DAY_MS, c.maxSolPerDay + dayBack, e.ts)
  {
    HourLater(c, s, hourBack, dayBack, clock, e.ts, FlightCost(s.flights));
    SlidingBook(s.l.hourLog, s.booked, s.refunds, FlightCost(s.flights), HOUR_MS, c.maxSolPerHour + hourBack, e);
    SlidingBook(s.l.dayLog, s.booked, s.refunds, FlightCost(s.flights), DAY_MS, c.maxSolPerDay + dayBack, e);
  }

  lemma RecordLog(c: Config, l: BudgetLog.Logged, clock: int, now: int, cost: nat, result: TxResult)
    requires BudgetLog.Inv(c, l, clock) && clock <= now && result != Drop
    ensures var l' := BudgetLog.Step(c, l, BudgetLog.Call(now, BudgetLog.RecordTx(Finite(cost), result)));
            && BudgetLog.Inv(c, l', now)
            && l'.hourLog == l.hourLog + [Stamped(now, cost)] && l'.dayLog == l.dayLog + [Stamped(now, cost)]
  {
    BudgetLog.StepInv(c, l, clock, BudgetLog.Call(now, BudgetLog.RecordTx(Finite(cost), result)));
  }

  /** The ledger after a booking, from what the budget's own log became. */
  lemma Booked(c: Config, s: Ledger, hourBack: int, dayBack: int, clock: int, e: Stamped<int>, i: nat, s': Ledger)
    requires DrainInv(c, s, hourBack, dayBack, clock) && clock <= e.ts && i < |s.flights| && s.flights[i].cost == e.what
    requires BudgetLog.Inv(c, s'.l, e.ts) && s'.l.hourLog == s.l.hourLog + [e] && s'.l.dayLog == s.l.dayLog + [e]
    requires s'.booked == s.booked + [e] && s'.refunds == s.refunds && s'.flights == Without(s.flights, i)
    requires s'.B().reservedLamports == s.B().reservedLamports - e.what
    requires s'.B().reservedTxCount == s.B().reservedTxCount - 1
    ensures DrainInv(c, s', hourBack, dayBack, e.ts)
  {
    FlightRemoved(s.flights, i);
    BookBoth(c, s, hourBack, dayBack, clock, e);
  }

  lemma SettleDrain(c: Config, s: Ledger, hourBack: int, dayBack: int, clock: int, now: int,
                    i: nat, result: TxResult, act: Act, s': Ledger)
    requires DrainInv(c, s, hourBack, dayBack, clock) && clock <= now && i < |s.flights| && result != Drop
    requires act == Act(now, Settle(i, result)) && s' == Next(c, s, act)
    ensures DrainInv(c, s', hourBack, dayBack, now)
  {
    FlightRemoved(s.flights, i);
    RecordLog(c, s.l, clock, now, s.flights[i].cost, result);
    RecordReserves(c, s.l, now, s.flights[i].cost, result, s'.l);
    Booked(c, s, hourBack, dayBack, clock, Stamped(now, s.flights[i].cost), i, s');
  }

  /** What a reconciliation pushes to a queue: at most one event, never taking back more than the refund. */
  predicate Correction(pushed: seq<Stamped<int>>, now: int, refund: nat) {
    pushed == [] || (|pushed| == 1 && pushed[0].ts == now && pushed[0].what + refund >= 0)
  }

  lemma AdjustPushes(sum: int, call: BudgetLog.Call, estimated: nat, realized: nat)
    requires call.what == BudgetLog.Adjust(Finite(estimated), Finite(realized))
    ensures Correction(BudgetLog.SpendPushed(sum, call), call.now, Max(0, estimated - realized))
  {
  }

  lemma AdjustLog(c: Config, l: BudgetLog.Logged, clock: int, call: BudgetLog.Call, estimated: nat, realized: nat,
                  l': BudgetLog.Logged)
    returns (hour: seq<Stamped<int>>, day: seq<Stamped<int>>)
    requires BudgetLog.Inv(c, l, clock) && clock <= call.now
    requires call.what == BudgetLog.Adjust(Finite(estimated), Finite(realized)) && l' == BudgetLog.Step(c, l, call)
    ensures BudgetLog.Inv(c, l', call.now) && l'.hourLog == l.hourLog + hour && l'.dayLog == l.dayLog + day
    ensures Correction(hour, call.now, Max(0, estimated - realized))
    ensures Correction(day, call.now, Max(0, estimated - realized))
  {
    hour := BudgetLog.SpendPushed(l.b.hourSpendSum, call);
    day := BudgetLog.SpendPushed(l.b.daySpendSum, call);
    BudgetLog.StepInv(c, l, clock, call);
    AdjustPushes(l.b.hourSpendSum, call, estimated, realized);
    AdjustPushes(l.b.daySpendSum, call, estimated, realized);
  }

  lemma CorrectBoth(c: Config, s: Ledger, hourBack: int, dayBack: int, clock: int, now: int,
                    hour: seq<Stamped<int>>, day: seq<Stamped<int>>, refund: nat)
    requires DrainInv(c, s, hourBack, dayBack, clock) && clock <= now
    requires Correction(hour, now, refund) && Correction(day, now, refund)
    ensures SlidingInv(s.l.hourLog + hour, s.booked, s.refunds + [Stamped(now, refund)], FlightCost(s.flights),
                       HOUR_MS, c.maxSolPerHour + hourBack, now)
    ensures SlidingInv(s.l.dayLog + day, s.booked, s.refunds + [Stamped(now, refund)], FlightCost(s.flights),
                       DAY_MS, c.maxSolPerDay + dayBack, now)
  {
    HourLater(c, s, hourBack, dayBack, clock, now, FlightCost(s.flights));
    BackedAdjust(s.l.hourLog, s.booked, s.refunds, hour, now, refund);
    BackedAdjust(s.l.dayLog, s.booked, s.refunds, day, now, refund);
  }

  lemma Corrected(c: Config, s: Ledger, hourBack: int, dayBack: int, clock: int, now: int,
                  hour: seq<Stamped<int>>, day: seq<Stamped<int>>, refund: nat, s': Ledger)
    requires DrainInv(c, s, hourBack, dayBack, clock) && clock <= now
    requires Correction(hour, now, refund) && Correction(day, now, refund)
    requires BudgetLog.Inv(c, s'.l, now) && s'.l.hourLog == s.l.hourLog + hour && s'.l.dayLog == s.l.dayLog + day
    requires s'.booked == s.booked && s'.refunds == s.refunds + [Stamped(now, refund)] && s'.flights == s.flights
    requires s'.B().reservedLamports == s.B().reservedLamports && s'.B().reservedTxCount == s.B().reservedTxCount
    ensures DrainInv(c, s', hourBack, dayBack, now)
  {
    CorrectBoth(c, s, hourBack, dayBack, clock, now, hour, day, refund);
  }

  lemma AdjustReserves(c: Config, l: BudgetLog.Logged, now: int, estimated: nat, realized: nat, l': BudgetLog.Logged)
    requires l' == BudgetLog.Step(c, l, BudgetLog.Call(now, BudgetLog.Adjust(Finite(estimated), Finite(realized))))
    ensures l'.b.reservedLamports == l.b.reservedLamports && l'.b.reservedTxCount == l.b.reservedTxCount
  {
    AdjustFields(c, l.b, Finite(estimated), Finite(realized), now);
  }

  lemma ReconcileDrain(c: Config, s: Ledger, hourBack: int, dayBack: int, clock: int, call: BudgetLog.Call,
                       estimated: nat, realized: nat, s': Ledger)
    requires DrainInv(c, s, hourBack, dayBack, clock) && clock <= call.now
    requires call.what == BudgetLog.Adjust(Finite(estimated), Finite(realized)) && s'.l == BudgetLog.Step(c, s.l, call)
    requires s'.refunds == s.refunds + [Stamped(call.now, Max(0, estimated - realized))]
    requires s'.booked == s.booked && s'.flights == s.flights
    ensures DrainInv(c, s', hourBack, dayBack, call.now)
  {
    var hour, day := AdjustLog(c, s.l, clock, call, estimated, realized, s'.l);
    AdjustReserves(c, s.l, call.now, estimated, realized, s'.l);
    Corrected(c, s, hourBack, dayBack, clock, call.now, hour, day, Max(0, estimated - realized), s');
  }

  /** Calls that push nothing and reserve nothing, among them a malformed reconciliation. */
  predicate Quiet(call: BudgetLog.Call) {
    match call.what
    case GetStats => true
    case HaltManually => true
    case Resume => true
    case Adjust(estimated, realized) => !BudgetLog.Ok(estimated) || !BudgetLog.Ok(realized)
    case _ => false
  }

  lemma QuietReserves(c: Config, b: Budget, call: BudgetLog.Call)
    requires Quiet(call)
    ensures BudgetLog.Perform(c, b, call).reservedLamports == b.reservedLamports
    ensures BudgetLog.Perform(c, b, call).reservedTxCount == b.reservedTxCount
  {
  }

  lemma QuietDrain(c: Config, s: Ledger, hourBack: int, dayBack: int, clock: int, call: BudgetLog.Call, s': Ledger)
    requires DrainInv(c, s, hourBack, dayBack, clock) && clock <= call.now && Quiet(call)
    requires s' == s.(l := BudgetLog.Step(c, s.l, call))
    ensures DrainInv(c, s', hourBack, dayBack, call.now)
  {
    QuietLog(c, s.l, clock, call);
    QuietReserves(c, s.B(), call);
    Unchanged(c, s, hourBack, dayBack, clock, call.now, s');
  }

  /** The acts the budget sees as quiet calls. */
  lemma NextIsQuiet(c: Config, s: Ledger, act: Act, s': Ledger) returns (call: BudgetLog.Call)
    requires s' == Next(c, s, act)
    requires match act.what
             case Peek => true
             case HaltManually => true
             case Resume => true
             case Reconcile(estimated, realized) => !BudgetLog.Ok(estimated) || !BudgetLog.Ok(realized)
             case _ => false
    ensures Quiet(call) && call.now == act.now && s' == s.(l := BudgetLog.Step(c, s.l, call))
  {
    match act.what
    case Peek => call := BudgetLog.Call(act.now, BudgetLog.GetStats);
    case HaltManually => call := BudgetLog.Call(act.now, BudgetLog.HaltManually);
    case Resume => call := BudgetLog.Call(act.now, BudgetLog.Resume);
    case Reconcile(estimated, realized) => call := BudgetLog.Call(act.now, BudgetLog.Adjust(estimated, realized));
  }

  lemma CorrectDrain(c: Config, s: Ledger, hourBack: int, dayBack: int, clock: int,
                     estimated: nat, realized: nat, act: Act, s': Ledger)
    requires DrainInv(c, s, hourBack, dayBack, clock) && clock <= act.now
    requires act.what == Reconcile(Finite(estimated), Finite(realized)) && s' == Next(c, s, act)
    ensures DrainInv(c, s', hourBack, dayBack, act.now)
  {
    var call := BudgetLog.Call(act.now, BudgetLog.Adjust(Finite(estimated), Finite(realized)));
    ReconcileNext(c, s, act, estimated, realized, call, s');
    ReconcileDrain(c, s, hourBack, dayBack, clock, call, estimated, realized, s');
  }

  lemma SettleDrains(c: Config, s: Ledger, hourBack: int, dayBack: int, clock: int,
                     i: nat, result: TxResult, act: Act, s': Ledger)
    requires DrainInv(c, s, hourBack, dayBack, clock) && clock <= act.now
    requires act.what == Settle(i, result) && s' == Next(c, s, act)
    ensures DrainInv(c, s', hourBack, dayBack, act.now)
  {
    if i >= |s.flights| { IdleDrain(c, s, hourBack, dayBack, clock, act.now); }
    else if result == Drop { DropDrain(c, s, hourBack, dayBack, clock, act.now, i, act, s'); }
    else { SettleDrain(c, s, hourBack, dayBack, clock, act.now, i, result, act, s'); }
  }

  predicate IsCorrection(what: What) {
    what.Reconcile? && BudgetLog.Ok(what.estimated) && BudgetLog.Ok(what.realized)
  }

  lemma DrainStep(c: Config, s: Ledger, hourBack: int, dayBack: int, clock: int, act: Act, s': Ledger)
    requires DrainInv(c, s, hourBack, dayBack, clock) && Refunded(s, hourBack, dayBack) && clock <= act.now
    requires s' == Next(c, s, act)
    ensures DrainInv(c, s', hourBack, dayBack, act.now)
  {
    var what := act.what;
    if what.Spend? { SpendDrain(c, s, hourBack, dayBack, clock, act.now, what.cost, what.lane, act, s'); }
    else if what.Settle? { SettleDrains(c, s, hourBack, dayBack, clock, what.i, what.result, act, s'); }
    else if IsCorrection(what) {
      CorrectDrain(c, s, hourBack, dayBack, clock, what.estimated.v, what.realized.v, act, s');
    } else {
      var call := NextIsQuiet(c, s, act, s');
      QuietDrain(c, s, hourBack, dayBack, clock, call, s');
    }
  }

  lemma IdleDrain(c: Config, s: Ledger, hourBack: int, dayBack: int, clock: int, now: int)
    requires DrainInv(c, s, hourBack, dayBack, clock) && clock <= now
    ensures DrainInv(c, s, hourBack, dayBack, now)
  {
    BudgetLog.LogIsSorted(s.l.hourLog, clock);
    HourLater(c, s, hourBack, dayBack, clock, now, FlightCost(s.flights));
  }

  lemma {:induction false} RefundsNonNegative(c: Config, acts: seq<Act>)
    ensures NonNegative(Run(c, acts).refunds)
  {
    if acts != [] { RefundsNonNegative(c, acts[..|acts| - 1]); }
  }

  lemma BoundBefore(log: seq<Stamped<int>>, e: Stamped<int>, span: int, back: int)
    requires SlidBound(log + [e], span, back) && e.what >= 0
    ensures SlidBound(log, span, back)
  {
    forall t ensures SlidAt(log, span, back, t) {
      assert SlidAt(log + [e], span, back, t);
      BetweenPush(log, e, t - span, t + 1);
    }
  }

  /** So a bound on them held all along. */
  lemma RefundedBefore(c: Config, s: Ledger, act: Act, hourBack: int, dayBack: int)
    requires Refunded(Next(c, s, act), hourBack, dayBack)
    ensures Refunded(s, hourBack, dayBack)
  {
    var refunds := Next(c, s, act).refunds;
    NextRefunds(c, s, act, refunds);
    if refunds != s.refunds {
      var e :| refunds == s.refunds + [e] && e.what >= 0;
      BoundBefore(s.refunds, e, HOUR_MS, hourBack);
      BoundBefore(s.refunds, e, DAY_MS, dayBack);
    }
  }

  lemma EmptyDrain(c: Config, hourBack: nat, dayBack: nat)
    ensures DrainInv(c, Empty, hourBack, dayBack, 0)
  {
    assert SlidBound([], HOUR_MS, c.maxSolPerHour + hourBack) && SlidBound([], DAY_MS, c.maxSolPerDay + dayBack);
    assert Backed([], [], []);
  }

  lemma {:induction false} DrainRun(c: Config, acts: seq<Act>, hourBack: nat, dayBack: nat)
    requires Clocked(acts) && Refunded(Run(c, acts), hourBack, dayBack)
    ensures DrainInv(c, Run(c, acts), hourBack, dayBack, LastNow(acts))
  {
    if acts == [] {
      EmptyDrain(c, hourBack, dayBack);
    } else {
      var front, act := acts[..|acts| - 1], acts[|acts| - 1];
      var s := Run(c, front);
      RefundedBefore(c, s, act, hourBack, dayBack);
      DrainRun(c, front, hourBack, dayBack);
      DrainStep(c, s, hourBack, dayBack, LastNow(front), act, Run(c, acts));
    }
  }

  /**
   The sliding drain bound: whatever the interleaving, and with reconciliation on, if no
   hour hands back more than `hourBack`, then for every instant t the lamports ever booked
   in the hour up to t exceed the hour cap by at most `hourBack`; and likewise for the day.
   */
  lemma SlidingDrainBound(c: Config, acts: seq<Act>, hourBack: nat, dayBack: nat, t: int)
    requires Clocked(acts) && Refunded(Run(c, acts), hourBack, dayBack)
    ensures Slid(Run(c, acts).booked, 3_600_000, t) <= c.maxSolPerHour + hourBack
    ensures Slid(Run(c, acts).booked, 86_400_000, t) <= c.maxSolPerDay + dayBack
  {
    DrainRun(c, acts, hourBack, dayBack);
    ReadOff(c, Run(c, acts), hourBack, dayBack, LastNow(acts), t);
  }

  lemma ReadOff(c: Config, s: Ledger, hourBack: int, dayBack: int, now: int, t: int)
    requires DrainInv(c, s, hourBack, dayBack, now)
    ensures Slid(s.booked, HOUR_MS, t) <= c.maxSolPerHour + hourBack
    ensures Slid(s.booked, DAY_MS, t) <= c.maxSolPerDay + dayBack
  {
    assert SlidAt(s.booked, HOUR_MS, c.maxSolPerHour + hourBack, t);
    assert SlidAt(s.booked, DAY_MS, c.maxSolPerDay + dayBack, t);
  }
}
