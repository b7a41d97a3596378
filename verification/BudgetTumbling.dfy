/**
 The tumbling cycle window over the full history: what the per-cycle caps bound for an
 interval that need not be aligned with the windows, and what reconciliation hands back.
 */
module BudgetTumbling {
  import opened Prelude
  import opened Events
  import opened BudgetState
  import opened BudgetLedger
  import BudgetLog
  import BudgetSliding

  /** The weight stamped in [a, a + w). */
  function Span(log: seq<Stamped<int>>, w: int, a: int): int {
    Sum(Within(log, a, a + w))
  }

  /** The open window holds at most `cap`, and so does the window closed before it. */
  ghost predicate Tumbled(log: seq<Stamped<int>>, start: int, w: int, cap: int) {
    && NonNegative(log)
    && Total(log, start) <= cap
    && (forall a :: a > start - w ==> Between(log, a, start) <= cap)
    && (forall a :: Span(log, w, a) <= 2 * cap)
  }

  lemma TumbleOpen(log: seq<Stamped<int>>, start: int, w: int, cap: int, now: int)
    requires w > 0 && cap >= 0 && Tumbled(log, start, w, cap) && UpTo(log, start + w - 1) && start + w <= now
    ensures Tumbled(log, now, w, cap)
  {
    TotalNone(log, now);
    forall a | a > now - w ensures Between(log, a, now) <= cap {
      WithinMonotone(log, a, now, start, now);
      WithinIsSince(log, start, now);
    }
  }

  lemma TumblePush(log: seq<Stamped<int>>, start: int, w: int, cap: int, e: Stamped<int>)
    requires Tumbled(log, start, w, cap) && start <= e.ts < start + w && e.what >= 0
    requires UpTo(log, start + w - 1) && Total(log + [e], start) <= cap
    ensures Tumbled(log + [e], start, w, cap)
  {
    var all := log + [e];
    forall a | a > start - w ensures Between(all, a, start) <= cap {
      WithinSkips(log, e, a, start);
      assert Between(log, a, start) <= cap;
    }
    forall a ensures Span(all, w, a) <= 2 * cap {
      if a <= e.ts < a + w {
        OpenAndClosed(all, start, w, cap, a);
      } else {
        WithinSkips(log, e, a, a + w);
        assert Span(log, w, a) <= 2 * cap;
      }
    }
  }

  /** An interval of one window's length meets at most the open window and the one before. */
  lemma OpenAndClosed(all: seq<Stamped<int>>, start: int, w: int, cap: int, a: int)
    requires NonNegative(all) && UpTo(all, start + w - 1) && Total(all, start) <= cap && w > 0
    requires a > start - w && Between(all, a, start) <= cap
    ensures Span(all, w, a) <= 2 * cap
  {
    WithinIsSince(all, start, start + w);
    if a <= start {
      WithinSplit(all, a, start, a + w);
      WithinMonotone(all, start, a + w, start, start + w);
    } else {
      WithinMonotone(all, a, a + w, start, start + w);
      WithinMonotone(all, start, start, start, start + w);
    }
  }

  // ---------- bookings net of what was handed back ----------

  /** Booked less handed back in [a, b). */
  function Net(booked: seq<Stamped<int>>, refunds: seq<Stamped<int>>, a: int, b: int): int {
    Between(booked, a, b) - Between(refunds, a, b)
  }

  /** Booked less handed back in [a, a + w). */
  function NetSpan(booked: seq<Stamped<int>>, refunds: seq<Stamped<int>>, w: int, a: int): int {
    Span(booked, w, a) - Span(refunds, w, a)
  }

  /** Booked less handed back since a. */
  function NetFrom(booked: seq<Stamped<int>>, refunds: seq<Stamped<int>>, a: int): int {
    Total(booked, a) - Total(refunds, a)
  }

  /** Net of what was handed back: the end of the closed window, and any span of one window. */
  ghost predicate NetTumbled(booked: seq<Stamped<int>>, refunds: seq<Stamped<int>>, start: int, w: int, cap: int) {
    && (forall a :: a > start - w ==> Net(booked, refunds, a, start) <= cap)
    && (forall a :: NetSpan(booked, refunds, w, a) <= 2 * cap)
  }

  /** From any moment of the open window on, the net bookings are within `spent`. */
  ghost predicate NetWithin(booked: seq<Stamped<int>>, refunds: seq<Stamped<int>>, start: int, spent: int) {
    forall a :: a >= start ==> NetFrom(booked, refunds, a) <= spent
  }

  lemma NetOpen(booked: seq<Stamped<int>>, refunds: seq<Stamped<int>>, start: int, w: int, cap: int, now: int)
    requires w > 0 && cap >= 0 && NetTumbled(booked, refunds, start, w, cap) && NetWithin(booked, refunds, start, cap)
    requires UpTo(booked, start + w - 1) && UpTo(refunds, start + w - 1) && start + w <= now
    ensures NetTumbled(booked, refunds, now, w, cap)
  {
    forall a | a > now - w ensures Net(booked, refunds, a, now) <= cap {
      WithinIsSince(booked, a, now);
      WithinIsSince(refunds, a, now);
      assert NetFrom(booked, refunds, a) <= cap;
    }
  }

  lemma TotalSplit(log: seq<Stamped<int>>, a: int, start: int, b: int)
    requires a <= start < b && UpTo(log, b - 1)
    ensures Between(log, a, b) == Between(log, a, start) + Total(log, start)
  {
    WithinSplit(log, a, start, b);
    WithinIsSince(log, start, b);
  }

  /** A span of one window that reaches beyond all that is logged. */
  lemma NetOpenAndClosed(booked: seq<Stamped<int>>, refunds: seq<Stamped<int>>, start: int, w: int, cap: int, a: int)
    requires w > 0 && a > start - w && UpTo(booked, a + w - 1) && UpTo(refunds, a + w - 1)
    requires Net(booked, refunds, a, start) <= cap && NetWithin(booked, refunds, start, cap) && cap >= 0
    ensures NetSpan(booked, refunds, w, a) <= 2 * cap
  {
    if a <= start {
      TotalSplit(booked, a, start, a + w);
      TotalSplit(refunds, a, start, a + w);
      assert NetFrom(booked, refunds, start) <= cap;
    } else {
      WithinIsSince(booked, a, a + w);
      WithinIsSince(refunds, a, a + w);
      assert NetFrom(booked, refunds, a) <= cap;
    }
  }

  lemma NetBook(booked: seq<Stamped<int>>, refunds: seq<Stamped<int>>, start: int, w: int, cap: int, e: Stamped<int>,
                all: seq<Stamped<int>>)
    requires NetTumbled(booked, refunds, start, w, cap) && start <= e.ts < start + w && cap >= 0
    requires all == booked + [e] && UpTo(all, e.ts) && UpTo(refunds, e.ts) && NetWithin(all, refunds, start, cap)
    ensures NetTumbled(all, refunds, start, w, cap)
  {
    forall a | a > start - w ensures Net(all, refunds, a, start) <= cap {
      WithinSkips(booked, e, a, start);
      assert Net(booked, refunds, a, start) <= cap;
    }
    forall a ensures NetSpan(all, refunds, w, a) <= 2 * cap {
      if a <= e.ts < a + w {
        assert Net(all, refunds, a, start) <= cap;
        NetOpenAndClosed(all, refunds, start, w, cap, a);
      } else {
        WithinSkips(booked, e, a, a + w);
        assert NetSpan(booked, refunds, w, a) <= 2 * cap;
      }
    }
  }

  lemma NetRefund(booked: seq<Stamped<int>>, refunds: seq<Stamped<int>>, start: int, w: int, cap: int, e: Stamped<int>,
                  all: seq<Stamped<int>>)
    requires NetTumbled(booked, refunds, start, w, cap) && e.what >= 0 && all == refunds + [e]
    ensures NetTumbled(booked, all, start, w, cap)
  {
    forall a | a > start - w ensures Net(booked, all, a, start) <= cap {
      BetweenPush(refunds, e, a, start);
      assert Net(booked, refunds, a, start) <= cap;
    }
    forall a ensures NetSpan(booked, all, w, a) <= 2 * cap {
      BetweenPush(refunds, e, a, a + w);
      assert NetSpan(booked, refunds, w, a) <= 2 * cap;
    }
  }

  lemma WithinBook(booked: seq<Stamped<int>>, refunds: seq<Stamped<int>>, start: int, spent: int, e: Stamped<int>,
                   all: seq<Stamped<int>>)
    requires NetWithin(booked, refunds, start, spent) && all == booked + [e] && e.what >= 0
    ensures NetWithin(all, refunds, start, spent + e.what)
  {
    forall a | a >= start ensures NetFrom(all, refunds, a) <= spent + e.what {
      TotalAppend(booked, e, a);
      assert NetFrom(booked, refunds, a) <= spent;
    }
  }

  /** A correction lowers the counter by no more than it hands back. */
  lemma WithinRefund(booked: seq<Stamped<int>>, refunds: seq<Stamped<int>>, start: int, spent: int, e: Stamped<int>,
                     all: seq<Stamped<int>>, left: int)
    requires NetWithin(booked, refunds, start, spent) && all == refunds + [e] && e.what >= 0
    requires UpTo(booked, e.ts) && UpTo(refunds, e.ts) && left >= 0 && left >= spent - e.what
    ensures NetWithin(booked, all, start, left)
  {
    forall a | a >= start ensures NetFrom(booked, all, a) <= left {
      TotalAppend(refunds, e, a);
      assert NetFrom(booked, refunds, a) <= spent;
      if a > e.ts {
        TotalNone(booked, a);
        TotalNone(refunds, a);
      }
    }
  }

  // ---------- the invariant ----------

  /** What was booked in the open window, next to what the counter and the reservations say. */
  ghost predicate Counted(c: Config, s: Ledger, clock: int) {
    var start := s.B().cycleStartMs;
    && InWindow(c, start, s.booked) && InWindow(c, start, s.refunds)
    && UpTo(s.booked, clock) && UpTo(s.refunds, clock)
    && NetWithin(s.booked, s.refunds, start, s.B().cycleSpend)
    && NetWithin(s.booked, s.refunds, start, c.maxSolPerCycle - FlightCost(s.flights))
  }

  ghost predicate TumbleInv(c: Config, s: Ledger, clock: int) {
    && CycleInv(c, s) && Counted(c, s, clock)
    && NetTumbled(s.booked, s.refunds, s.B().cycleStartMs, c.cycleWindowMs, c.maxSolPerCycle)
    && Tumbled(s.attempts, s.B().cycleStartMs, c.cycleWindowMs, c.maxTxPerCycle)
  }

  lemma TumbleRoll(c: Config, start: int, log: seq<Stamped<int>>, cap: nat, now: int)
    requires c.cycleWindowMs > 0 && now > 0 && start >= 0
    requires InWindow(c, start, log) && Tumbled(log, start, c.cycleWindowMs, cap)
    ensures Tumbled(log, StartAt(c, start, now), c.cycleWindowMs, cap)
  {
    if start == 0 {
      assert Total(log, now) == 0;
      forall a ensures Between(log, a, now) == 0 && Span(log, c.cycleWindowMs, a) == 0 {}
    } else if Rolls(c, start, now) {
      TumbleOpen(log, start, c.cycleWindowMs, cap, now);
    }
  }

  lemma WeakerWithin(booked: seq<Stamped<int>>, refunds: seq<Stamped<int>>, start: int, spent: int, more: int)
    requires NetWithin(booked, refunds, start, spent) && spent <= more
    ensures NetWithin(booked, refunds, start, more)
  {
    forall a | a >= start ensures NetFrom(booked, refunds, a) <= more {
      assert NetFrom(booked, refunds, a) <= spent;
    }
  }

  lemma FreshWithin(booked: seq<Stamped<int>>, refunds: seq<Stamped<int>>, now: int, spent: nat)
    requires UpTo(booked, now - 1) && UpTo(refunds, now - 1)
    ensures NetWithin(booked, refunds, now, spent)
  {
    forall a | a >= now ensures NetFrom(booked, refunds, a) <= spent {
      TotalNone(booked, a);
      TotalNone(refunds, a);
    }
  }

  lemma NetRoll(c: Config, start: int, booked: seq<Stamped<int>>, refunds: seq<Stamped<int>>, spent: int, cap: nat,
                now: int)
    requires c.cycleWindowMs > 0 && now > 0 && start >= 0 && spent <= cap
    requires InWindow(c, start, booked) && InWindow(c, start, refunds)
    requires NetTumbled(booked, refunds, start, c.cycleWindowMs, cap) && NetWithin(booked, refunds, start, spent)
    ensures NetTumbled(booked, refunds, StartAt(c, start, now), c.cycleWindowMs, cap)
  {
    if start == 0 {
      forall a ensures Net([], [], a, now) == 0 && NetSpan([], [], c.cycleWindowMs, a) == 0 {}
    } else if Rolls(c, start, now) {
      WeakerWithin(booked, refunds, start, spent, cap);
      NetOpen(booked, refunds, start, c.cycleWindowMs, cap, now);
    }
  }

  lemma OpenedCounted(c: Config, s: Ledger, clock: int, now: int)
    requires c.cycleWindowMs > 0 && now > 0 && clock <= now && TumbleInv(c, s, clock)
    ensures Counted(c, Opened(c, s, now), now)
  {
    OpenedInv(c, s, now);
    RollLog(c, s.B().cycleStartMs, s.booked, now);
    RollLog(c, s.B().cycleStartMs, s.refunds, now);
    if Rolls(c, s.B().cycleStartMs, now) {
      FreshWithin(s.booked, s.refunds, now, 0);
      FreshWithin(s.booked, s.refunds, now, c.maxSolPerCycle - FlightCost(s.flights));
    }
  }

  lemma OpenedTumble(c: Config, s: Ledger, clock: int, now: int)
    requires c.cycleWindowMs > 0 && now > 0 && clock <= now && TumbleInv(c, s, clock)
    ensures TumbleInv(c, Opened(c, s, now), now)
    ensures Opened(c, s, now).B().cycleStartMs == StartAt(c, s.B().cycleStartMs, now)
  {
    OpenedInv(c, s, now);
    OpenedCounted(c, s, clock, now);
    NetRoll(c, s.B().cycleStartMs, s.booked, s.refunds, c.maxSolPerCycle - FlightCost(s.flights), c.maxSolPerCycle,
            now);
    TumbleRoll(c, s.B().cycleStartMs, s.attempts, c.maxTxPerCycle, now);
  }

  /** TumbleInv speaks of these fields only. */
  lemma SameTumble(c: Config, s: Ledger, clock: int, s': Ledger, now: int)
    requires TumbleInv(c, s, clock) && CycleInv(c, s') && clock <= now
    requires s'.B().cycleSpend == s.B().cycleSpend && s'.B().cycleStartMs == s.B().cycleStartMs
    requires s'.booked == s.booked && s'.attempts == s.attempts && s'.refunds == s.refunds
    requires s'.flights == s.flights
    ensures TumbleInv(c, s', now)
  {
  }

  /** An admission: the gate has just compared the counter, reservations included, with the cap. */
  lemma AdmitTumble(c: Config, o: Ledger, now: int, s': Ledger)
    requires TumbleInv(c, o, now) && CycleInv(c, s')
    requires s'.B().cycleSpend == o.B().cycleSpend && s'.B().cycleStartMs == o.B().cycleStartMs
    requires s'.booked == o.booked && s'.attempts == o.attempts && s'.refunds == o.refunds
    requires s'.B().cycleSpend + FlightCost(s'.flights) <= c.maxSolPerCycle
    ensures TumbleInv(c, s', now)
  {
    WeakerWithin(o.booked, o.refunds, o.B().cycleStartMs, o.B().cycleSpend,
                 c.maxSolPerCycle - FlightCost(s'.flights));
  }

  /** A settled attempt, booked or dropped. */
  lemma BookTumble(c: Config, o: Ledger, now: int, cost: nat, dropped: bool, s': Ledger)
    requires c.cycleWindowMs > 0 && o.B().cycleStartMs > 0 && TumbleInv(c, o, now) && CycleInv(c, s')
    requires o.B().cycleStartMs <= now < o.B().cycleStartMs + c.cycleWindowMs
    requires s'.B().cycleStartMs == o.B().cycleStartMs && s'.refunds == o.refunds
    requires s'.B().cycleSpend == o.B().cycleSpend + (if dropped then 0 else cost)
    requires s'.booked == if dropped then o.booked else o.booked + [Stamped(now, cost)]
    requires s'.attempts == o.attempts + [Stamped(now, 1)]
    requires FlightCost(s'.flights) == FlightCost(o.flights) - cost
    ensures TumbleInv(c, s', now)
  {
    var start := o.B().cycleStartMs;
    TumblePush(o.attempts, start, c.cycleWindowMs, c.maxTxPerCycle, Stamped(now, 1));
    var free := c.maxSolPerCycle - FlightCost(o.flights);
    if dropped {
      WeakerWithin(o.booked, o.refunds, start, free, free + cost);
    } else {
      var e := Stamped(now, cost);
      WithinBook(o.booked, o.refunds, start, o.B().cycleSpend, e, s'.booked);
      WithinBook(o.booked, o.refunds, start, free, e, s'.booked);
      WeakerWithin(s'.booked, o.refunds, start, free + cost, c.maxSolPerCycle);
      NetBook(o.booked, o.refunds, start, c.cycleWindowMs, c.maxSolPerCycle, e, s'.booked);
    }
  }

  lemma CorrectTumble(c: Config, o: Ledger, now: int, estimated: nat, realized: nat, s': Ledger)
    requires c.cycleWindowMs > 0 && o.B().cycleStartMs > 0 && TumbleInv(c, o, now) && CycleInv(c, s')
    requires o.B().cycleStartMs <= now < o.B().cycleStartMs + c.cycleWindowMs
    requires s'.B().cycleStartMs == o.B().cycleStartMs && s'.booked == o.booked && s'.attempts == o.attempts
    requires s'.B().cycleSpend == Max(0, o.B().cycleSpend + realized - estimated) && s'.flights == o.flights
    requires s'.refunds == o.refunds + [Stamped(now, Max(0, estimated - realized))]
    ensures TumbleInv(c, s', now)
  {
    var start, e := o.B().cycleStartMs, Stamped(now, Max(0, estimated - realized));
    var free := c.maxSolPerCycle - FlightCost(o.flights);
    WithinRefund(o.booked, o.refunds, start, o.B().cycleSpend, e, s'.refunds, s'.B().cycleSpend);
    WithinRefund(o.booked, o.refunds, start, free, e, s'.refunds, free);
    NetRefund(o.booked, o.refunds, start, c.cycleWindowMs, c.maxSolPerCycle, e, s'.refunds);
  }

  // ---------- the acts ----------

  lemma SpendTumble(c: Config, s: Ledger, clock: int, now: int, cost: Num, lane: TxType, s': Ledger)
    requires c.cycleWindowMs > 0 && s.B().cycleStartMs <= now && now > 0 && clock <= now
    requires TumbleInv(c, s, clock) && s' == Next(c, s, Act(now, Spend(cost, lane)))
    ensures TumbleInv(c, s', now)
  {
    SpendInv(c, s, now, cost, lane);
    OpenedTumble(c, s, clock, now);
    GateFields(c, s.B(), cost, lane, now);
    if s.B().CanSpend(c, cost, lane, now).1 {
      AdmitTumble(c, Opened(c, s, now), now, s');
    } else if SameCycle(s.B(), s'.B()) {
      SameTumble(c, s, clock, s', now);
    } else {
      SameTumble(c, Opened(c, s, now), now, s', now);
    }
  }

  lemma SettleTumble(c: Config, s: Ledger, clock: int, now: int, i: nat, result: TxResult, s': Ledger)
    requires c.cycleWindowMs > 0 && s.B().cycleStartMs <= now && now > 0 && clock <= now
    requires TumbleInv(c, s, clock) && i < |s.flights| && s' == Next(c, s, Act(now, Settle(i, result)))
    ensures TumbleInv(c, s', now)
  {
    SettleInv(c, s, now, i, result);
    FlightRemoved(s.flights, i);
    SettleFields(c, s, now, i, result, s');
    OpenedTumble(c, s, clock, now);
    BookTumble(c, Opened(c, s, now), now, s.flights[i].cost, result == Drop, s');
  }

  lemma AdjustedCycle(c: Config, l: BudgetLog.Logged, now: int, estimated: nat, realized: nat, b': Budget)
    requires b' == BudgetLog.Step(c, l, BudgetLog.Call(now, BudgetLog.Adjust(Finite(estimated), Finite(realized)))).b
    ensures b'.cycleStartMs == l.b.Roll(c, now).cycleStartMs
    ensures b'.cycleSpend == Max(0, l.b.Roll(c, now).cycleSpend + realized - estimated)
  {
    AdjustFields(c, l.b, Finite(estimated), Finite(realized), now);
  }

  lemma ReconcileTumble(c: Config, s: Ledger, clock: int, now: int, estimated: nat, realized: nat, s': Ledger)
    requires c.cycleWindowMs > 0 && s.B().cycleStartMs <= now && now > 0 && clock <= now
    requires TumbleInv(c, s, clock) && CycleInv(c, s')
    requires s' == Next(c, s, Act(now, Reconcile(Finite(estimated), Finite(realized))))
    ensures TumbleInv(c, s', now)
  {
    ReconcileNext(c, s, Act(now, Reconcile(Finite(estimated), Finite(realized))), estimated, realized,
                  BudgetLog.Call(now, BudgetLog.Adjust(Finite(estimated), Finite(realized))), s');
    AdjustedCycle(c, s.l, now, estimated, realized, s'.B());
    OpenedTumble(c, s, clock, now);
    CorrectTumble(c, Opened(c, s, now), now, estimated, realized, s');
  }

  lemma PeekTumble(c: Config, s: Ledger, clock: int, now: int, s': Ledger)
    requires c.cycleWindowMs > 0 && s.B().cycleStartMs <= now && now > 0 && clock <= now && TumbleInv(c, s, clock)
    requires s' == Next(c, s, Act(now, Peek))
    ensures TumbleInv(c, s', now)
  {
    NextInv(c, s, Act(now, Peek));
    OpenedTumble(c, s, clock, now);
    SameTumble(c, Opened(c, s, now), now, s', now);
  }

  /** Acts that move neither money nor the window. */
  lemma IdleTumble(c: Config, s: Ledger, clock: int, act: Act, s': Ledger)
    requires c.cycleWindowMs > 0 && s.B().cycleStartMs <= act.now && act.now > 0 && clock <= act.now
    requires TumbleInv(c, s, clock) && s' == Next(c, s, act)
    requires act.what.HaltManually? || act.what.Resume? || (act.what.Settle? && act.what.i >= |s.flights|)
          || (act.what.Reconcile? && !(BudgetLog.Ok(act.what.estimated) && BudgetLog.Ok(act.what.realized)))
    ensures TumbleInv(c, s', act.now)
  {
    NextInv(c, s, act);
    SameTumble(c, s, clock, s', act.now);
  }

  lemma TumbleStep(c: Config, s: Ledger, clock: int, act: Act, s': Ledger)
    requires c.cycleWindowMs > 0 && s.B().cycleStartMs <= act.now && act.now > 0 && clock <= act.now
    requires TumbleInv(c, s, clock) && s' == Next(c, s, act)
    ensures TumbleInv(c, s', act.now)
  {
    match act.what
    case Settle(i, result) =>
      if i < |s.flights| { SettleTumble(c, s, clock, act.now, i, result, s'); }
      else { IdleTumble(c, s, clock, act, s'); }
    case Spend(cost, lane) => SpendTumble(c, s, clock, act.now, cost, lane, s');
    case Reconcile(estimated, realized) =>
      if BudgetLog.Ok(estimated) && BudgetLog.Ok(realized) {
        NextInv(c, s, act);
        ReconcileTumble(c, s, clock, act.now, estimated.v, realized.v, s');
      } else {
        IdleTumble(c, s, clock, act, s');
      }
    case Peek => PeekTumble(c, s, clock, act.now, s');
    case _ => IdleTumble(c, s, clock, act, s');
  }

  lemma EmptyTumble(c: Config)
    ensures TumbleInv(c, Empty, 0)
  {
    EmptyInv(c);
    forall a ensures Between([], a, 0) == 0 && Span([], c.cycleWindowMs, a) == 0 {}
  }

  lemma {:induction false} TumbleRun(c: Config, acts: seq<Act>)
    requires c.cycleWindowMs > 0 && Clocked(acts)
    ensures TumbleInv(c, Run(c, acts), LastNow(acts))
  {
    if acts == [] {
      EmptyTumble(c);
    } else {
      var front, act := acts[..|acts| - 1], acts[|acts| - 1];
      TumbleRun(c, front);
      RunInv(c, front);
      TumbleStep(c, Run(c, front), LastNow(front), act, Run(c, acts));
    }
  }

  /**
   The tumbling-window bound, with reconciliation on: any interval of one window's length,
   wherever it lies, books at most twice the cycle spend cap and what reconciliation handed
   back in that very interval, and in any case at most twice the attempt cap, even when
   reservations straddle the rolls.
   */
  lemma TumblingWindowBound(c: Config, acts: seq<Act>, a: int)
    requires c.cycleWindowMs > 0 && Clocked(acts)
    ensures var s := Run(c, acts);
            && Span(s.booked, c.cycleWindowMs, a) <= 2 * c.maxSolPerCycle + Span(s.refunds, c.cycleWindowMs, a)
            && Span(s.attempts, c.cycleWindowMs, a) <= 2 * c.maxTxPerCycle
  {
    var s := Run(c, acts);
    TumbleRun(c, acts);
    assert NetSpan(s.booked, s.refunds, c.cycleWindowMs, a) <= 2 * c.maxSolPerCycle;
  }

  // ---------- without reconciliation ----------

  predicate NoReconcile(acts: seq<Act>) {
    forall i :: 0 <= i < |acts| ==> !acts[i].what.Reconcile?
  }

  lemma {:induction false} NothingRefunded(c: Config, acts: seq<Act>)
    requires NoReconcile(acts)
    ensures Run(c, acts).refunds == []
  {
    if acts != [] { NothingRefunded(c, acts[..|acts| - 1]); }
  }

  /** With reconciliation off the caps themselves bound every hour, every day and any two windows. */
  lemma CapsHoldWithoutReconciliation(c: Config, acts: seq<Act>, t: int)
    requires c.cycleWindowMs > 0 && Clocked(acts) && NoReconcile(acts)
    ensures BudgetSliding.Slid(Run(c, acts).booked, HOUR_MS, t) <= c.maxSolPerHour
    ensures BudgetSliding.Slid(Run(c, acts).booked, DAY_MS, t) <= c.maxSolPerDay
    ensures Span(Run(c, acts).booked, c.cycleWindowMs, t) <= 2 * c.maxSolPerCycle
  {
    NothingRefunded(c, acts);
    NoBound(c, Run(c, acts));
    BudgetSliding.SlidingDrainBound(c, acts, 0, 0, t);
    TumblingWindowBound(c, acts, t);
  }

  lemma NoBound(c: Config, s: Ledger)
    requires s.refunds == []
    ensures BudgetSliding.Refunded(s, 0, 0)
  {
    assert BudgetSliding.SlidBound([], HOUR_MS, 0) && BudgetSliding.SlidBound([], DAY_MS, 0);
  }
}
