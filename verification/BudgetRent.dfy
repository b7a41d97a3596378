/**
 Rent and the hour cap. The gate is asked for fee and rent together; five seconds after the
 transaction confirmed, reconciliation compares that with the fee alone and hands the rent
 back, although it was spent. So the hour cap does not bound what provisioning drains.
 */
module BudgetRent {
  import opened Prelude
  import opened Events
  import opened BudgetState
  import opened BudgetLedger
  import BudgetLog
  import BudgetSliding

  const RECONCILE_DELAY_MS := 5_000

  function Round(fee: nat, rent: nat, now: int): seq<Act> {
    [Act(now, Spend(Finite(fee + rent), Crank)), Act(now, Settle(0, Success)),
     Act(now + RECONCILE_DELAY_MS, Reconcile(Finite(fee + rent), Finite(fee)))]
  }

  /** k times x. */
  function Repeated(x: nat, k: nat): nat {
    if k == 0 then 0 else Repeated(x, k - 1) + x
  }

  lemma {:induction false} RepeatedIsProduct(x: nat, k: nat)
    ensures Repeated(x, k) == k * x
  {
    if k > 0 {
      RepeatedIsProduct(x, k - 1);
      assert (k - 1) * x + x == k * x;
    }
  }

  function TimeOf(c: Config, k: nat): int {
    1 + Repeated(c.cycleWindowMs, k)
  }

  /** k provisioning sends, one in each of k cycle windows, each confirmed and reconciled. */
  function Provision(c: Config, fee: nat, rent: nat, k: nat): seq<Act> {
    if k == 0 then [] else Provision(c, fee, rent, k - 1) + Round(fee, rent, TimeOf(c, k - 1))
  }

  ghost predicate From1<T>(log: seq<Stamped<T>>) {
    forall i :: 0 <= i < |log| ==> log[i].ts >= 1
  }

  /** Both spend logs add up to `spent`, `cost` in `slots` reservations is held, and nothing failed. */
  ghost predicate Calm(c: Config, l: BudgetLog.Logged, spent: int, cost: int, slots: int, clock: int) {
    && BudgetLog.Inv(c, l, clock)
    && l.b.halted.None? && BudgetLog.AllTrue(l.txLog)
    && l.b.reservedLamports == cost && l.b.reservedTxCount == slots
    && (l.b.cycleStartMs == 0 ==> l.b.cycleSpend == 0 && l.b.cycleTxCount == 0)
    && AddsUp(l.hourLog, spent) && AddsUp(l.dayLog, spent)
  }

  ghost predicate AddsUp(log: seq<Stamped<int>>, sum: int) {
    From1(log) && Sum(log) == sum
  }

  lemma OneMoreEvent(log: seq<Stamped<int>>, e: Stamped<int>, sum: int)
    requires AddsUp(log, sum) && e.ts >= 1
    ensures AddsUp(log + [e], sum + e.what)
  {
    SumAppend(log, [e]);
    assert Sum([e][1..]) == 0;
  }

  lemma AllRecent(log: seq<Stamped<int>>, span: int, now: int, sum: int)
    requires AddsUp(log, sum) && now - span <= 1
    ensures Total(log, now - span) == sum
  {
    SinceAll(log, now - span);
  }

  // ---------- one send, as the budget sees it ----------

  /** The gate opens in a fresh window with nothing in flight. */
  lemma GateOpens(c: Config, l: BudgetLog.Logged, spent: nat, cost: nat, clock: int, now: int)
    requires Calm(c, l, spent, 0, 0, clock) && clock <= now && 0 < now <= HOUR_MS
    requires l.b.cycleStartMs == 0 || now - l.b.cycleStartMs >= c.cycleWindowMs > 0
    requires c.txSuccessRateThreshold <= 1.0 && c.maxTxPerCycle >= 1
    requires cost <= c.maxSolPerCycle && spent + cost <= c.maxSolPerHour && spent + cost <= c.maxSolPerDay
    ensures l.b.CanSpend(c, Finite(cost), Crank, now).1
  {
    BudgetLog.SumsAtTheGate(c, l, clock, now, l.b.Roll(c, now));
    AllRecent(l.hourLog, HOUR_MS, now, spent);
    AllRecent(l.dayLog, DAY_MS, now, spent);
    BudgetLog.InvRate(c, l, clock, now);
    BudgetLog.AllTrueRate(c, l.txLog, now);
    BudgetLog.GateOnSums(c, l.b, cost, Crank, now);
  }

  lemma AdmittedRuns(c: Config, b: Budget, cost: nat, now: int)
    requires b.CanSpend(c, Finite(cost), Crank, now).1
    ensures b.CanSpend(c, Finite(cost), Crank, now).0.halted == None
  {
  }

  lemma HaltUntouched(c: Config, b: Budget, call: BudgetLog.Call)
    requires call.what.RecordTx? || call.what.Adjust?
    ensures BudgetLog.Perform(c, b, call).halted == b.halted
  {
  }

  lemma Reserves(c: Config, l: BudgetLog.Logged, spent: nat, cost: nat, clock: int, call: BudgetLog.Call,
                 l': BudgetLog.Logged)
    requires Calm(c, l, spent, 0, 0, clock) && clock <= call.now && 0 < call.now
    requires l.b.cycleStartMs == 0 || call.now - l.b.cycleStartMs >= c.cycleWindowMs
    requires l.b.CanSpend(c, Finite(cost), Crank, call.now).1
    requires call.what == BudgetLog.CanSpend(Finite(cost), Crank) && l' == BudgetLog.Step(c, l, call)
    ensures Calm(c, l', spent, cost, 1, call.now) && l'.b.cycleStartMs == call.now
  {
    AdmittedRuns(c, l.b, cost, call.now);
    GateFields(c, l.b, Finite(cost), Crank, call.now);
    BudgetSliding.QuietLog(c, l, clock, call);
    assert l.txLog + [] == l.txLog;
  }

  lemma ConfirmedLog(c: Config, l: BudgetLog.Logged, cost: nat, call: BudgetLog.Call, l': BudgetLog.Logged)
    requires BudgetLog.Inv(c, l, call.now)
    requires call.what == BudgetLog.RecordTx(Finite(cost), Success) && l' == BudgetLog.Step(c, l, call)
    ensures BudgetLog.Inv(c, l', call.now) && l'.prunedAt == call.now && l'.b.halted == l.b.halted
    ensures l'.hourLog == l.hourLog + [Stamped(call.now, cost)] && l'.dayLog == l.dayLog + [Stamped(call.now, cost)]
    ensures l'.txLog == l.txLog + [Stamped(call.now, true)]
  {
    BudgetLog.StepInv(c, l, call.now, call);
    HaltUntouched(c, l.b, call);
  }

  /** The reservation is released, in the window it was taken in. */
  lemma ConfirmedFields(c: Config, l: BudgetLog.Logged, cost: nat, call: BudgetLog.Call, l': BudgetLog.Logged)
    requires l.b.reservedLamports == cost && l.b.reservedTxCount == 1
    requires 0 < l.b.cycleStartMs <= call.now < l.b.cycleStartMs + c.cycleWindowMs
    requires call.what == BudgetLog.RecordTx(Finite(cost), Success) && l' == BudgetLog.Step(c, l, call)
    ensures l'.b.reservedLamports == 0 && l'.b.reservedTxCount == 0 && l'.b.cycleStartMs == l.b.cycleStartMs
  {
    RecordFields(c, l.b, cost, Success, call.now);
  }

  lemma SumsNow(c: Config, l: BudgetLog.Logged, now: int, sum: int)
    requires BudgetLog.Inv(c, l, now) && l.prunedAt == now <= HOUR_MS && AddsUp(l.hourLog, sum) && AddsUp(l.dayLog, sum)
    ensures l.b.hourSpendSum == l.b.daySpendSum == sum
  {
    BudgetSliding.SumIsTotal(c, l, now);
    AllRecent(l.hourLog, HOUR_MS, now, sum);
    AllRecent(l.dayLog, DAY_MS, now, sum);
  }

  lemma ConfirmedSums(c: Config, l: BudgetLog.Logged, spent: nat, e: Stamped<int>, l': BudgetLog.Logged)
    requires AddsUp(l.hourLog, spent) && AddsUp(l.dayLog, spent) && 1 <= e.ts <= HOUR_MS && e.what >= 0
    requires BudgetLog.Inv(c, l', e.ts) && l'.prunedAt == e.ts
    requires l'.hourLog == l.hourLog + [e] && l'.dayLog == l.dayLog + [e]
    ensures AddsUp(l'.hourLog, spent + e.what) && AddsUp(l'.dayLog, spent + e.what)
    ensures l'.b.hourSpendSum == l'.b.daySpendSum == spent + e.what
  {
    OneMoreEvent(l.hourLog, e, spent);
    OneMoreEvent(l.dayLog, e, spent);
    SumsNow(c, l', e.ts, spent + e.what);
  }

  lemma Confirms(c: Config, l: BudgetLog.Logged, spent: nat, cost: nat, call: BudgetLog.Call, l': BudgetLog.Logged)
    requires Calm(c, l, spent, cost, 1, call.now) && call.now <= HOUR_MS
    requires 0 < l.b.cycleStartMs <= call.now < l.b.cycleStartMs + c.cycleWindowMs
    requires call.what == BudgetLog.RecordTx(Finite(cost), Success) && l' == BudgetLog.Step(c, l, call)
    ensures Calm(c, l', spent + cost, 0, 0, call.now) && l'.b.cycleStartMs == l.b.cycleStartMs
    ensures l'.b.hourSpendSum == l'.b.daySpendSum == spent + cost
  {
    ConfirmedLog(c, l, cost, call, l');
    ConfirmedFields(c, l, cost, call, l');
    ConfirmedSums(c, l, spent, Stamped(call.now, cost), l');
  }

  function Correction(now: int, rent: int): Stamped<int> {
    Stamped(now, -rent)
  }

  lemma PushesCorrection(sum: int, fee: nat, rent: nat, call: BudgetLog.Call)
    requires call.what == BudgetLog.Adjust(Finite(fee + rent), Finite(fee)) && 0 < rent <= sum
    ensures BudgetLog.SpendPushed(sum, call) == [Correction(call.now, rent)]
    ensures BudgetLog.OutcomePushed(call) == []
  {
  }

  lemma RefundedLog(c: Config, l: BudgetLog.Logged, fee: nat, rent: nat, clock: int, call: BudgetLog.Call,
                    l': BudgetLog.Logged)
    requires BudgetLog.Inv(c, l, clock) && clock <= call.now && 0 < rent
    requires l.b.hourSpendSum == l.b.daySpendSum >= rent
    requires call.what == BudgetLog.Adjust(Finite(fee + rent), Finite(fee)) && l' == BudgetLog.Step(c, l, call)
    ensures BudgetLog.Inv(c, l', call.now) && l'.b.halted == l.b.halted && l'.txLog == l.txLog
    ensures l'.hourLog == l.hourLog + [Correction(call.now, rent)]
    ensures l'.dayLog == l.dayLog + [Correction(call.now, rent)]
  {
    PushesCorrection(l.b.hourSpendSum, fee, rent, call);
    BudgetLog.StepInv(c, l, clock, call);
    HaltUntouched(c, l.b, call);
    assert l.txLog + [] == l.txLog;
  }

  lemma RefundedFields(c: Config, l: BudgetLog.Logged, fee: nat, rent: nat, call: BudgetLog.Call, l': BudgetLog.Logged)
    requires 0 < l.b.cycleStartMs <= call.now < l.b.cycleStartMs + c.cycleWindowMs
    requires call.what == BudgetLog.Adjust(Finite(fee + rent), Finite(fee)) && l' == BudgetLog.Step(c, l, call)
    ensures l'.b.reservedLamports == l.b.reservedLamports && l'.b.reservedTxCount == l.b.reservedTxCount
    ensures l'.b.cycleStartMs == l.b.cycleStartMs
  {
    AdjustFields(c, l.b, Finite(fee + rent), Finite(fee), call.now);
  }

  lemma HandsBack(c: Config, l: BudgetLog.Logged, fee: nat, rent: nat, spent: nat, clock: int, call: BudgetLog.Call,
                  l': BudgetLog.Logged)
    requires Calm(c, l, spent, 0, 0, clock) && clock <= call.now && 0 < rent <= spent
    requires 0 < l.b.cycleStartMs <= call.now < l.b.cycleStartMs + c.cycleWindowMs
    requires l.b.hourSpendSum == l.b.daySpendSum == spent
    requires call.what == BudgetLog.Adjust(Finite(fee + rent), Finite(fee)) && l' == BudgetLog.Step(c, l, call)
    ensures Calm(c, l', spent - rent, 0, 0, call.now) && l'.b.cycleStartMs == l.b.cycleStartMs
  {
    RefundedLog(c, l, fee, rent, clock, call, l');
    RefundedFields(c, l, fee, rent, call, l');
    OneMoreEvent(l.hourLog, Correction(call.now, rent), spent);
    OneMoreEvent(l.dayLog, Correction(call.now, rent), spent);
  }

  /** Spend, confirm, reconcile: the sums grow by the fee only. */
  lemma OneRound(c: Config, l: BudgetLog.Logged, fee: nat, rent: nat, spent: nat, clock: int, now: int,
                 spend: BudgetLog.Call, record: BudgetLog.Call, adjust: BudgetLog.Call) returns (l3: BudgetLog.Logged)
    requires Calm(c, l, spent, 0, 0, clock) && clock <= now && 0 < now <= HOUR_MS && rent > 0
    requires l.b.cycleStartMs == 0 || now - l.b.cycleStartMs >= c.cycleWindowMs
    requires c.cycleWindowMs > RECONCILE_DELAY_MS && c.txSuccessRateThreshold <= 1.0 && c.maxTxPerCycle >= 1
    requires fee + rent <= c.maxSolPerCycle
    requires spent + fee + rent <= c.maxSolPerHour && spent + fee + rent <= c.maxSolPerDay
    requires spend == BudgetLog.Call(now, BudgetLog.CanSpend(Finite(fee + rent), Crank))
    requires record == BudgetLog.Call(now, BudgetLog.RecordTx(Finite(fee + rent), Success))
    requires adjust == BudgetLog.Call(now + RECONCILE_DELAY_MS, BudgetLog.Adjust(Finite(fee + rent), Finite(fee)))
    ensures l3 == BudgetLog.Step(c, BudgetLog.Step(c, BudgetLog.Step(c, l, spend), record), adjust)
    ensures l.b.CanSpend(c, Finite(fee + rent), Crank, now).1
    ensures Calm(c, l3, spent + fee, 0, 0, now + RECONCILE_DELAY_MS) && l3.b.cycleStartMs == now
  {
    GateOpens(c, l, spent, fee + rent, clock, now);
    var l1 := BudgetLog.Step(c, l, spend);
    Reserves(c, l, spent, fee + rent, clock, spend, l1);
    var l2 := BudgetLog.Step(c, l1, record);
    Confirms(c, l1, spent, fee + rent, record, l2);
    l3 := BudgetLog.Step(c, l2, adjust);
    HandsBack(c, l2, fee, rent, spent + fee + rent, now, adjust, l3);
  }

  // ---------- k sends, in the ledger ----------

  lemma SpendNext(c: Config, s: Ledger, cost: nat, now: int, s': Ledger)
    requires s.B().CanSpend(c, Finite(cost), Crank, now).1 && s.flights == []
    requires s' == Next(c, s, Act(now, Spend(Finite(cost), Crank)))
    ensures s'.l == BudgetLog.Step(c, s.l, BudgetLog.Call(now, BudgetLog.CanSpend(Finite(cost), Crank)))
    ensures s'.flights == [Flight(cost, Crank)] && s'.booked == s.booked
  {
  }

  lemma SettleNext(c: Config, s: Ledger, cost: nat, now: int, s': Ledger)
    requires s.flights == [Flight(cost, Crank)] && s' == Next(c, s, Act(now, Settle(0, Success)))
    ensures s'.l == BudgetLog.Step(c, s.l, BudgetLog.Call(now, BudgetLog.RecordTx(Finite(cost), Success)))
    ensures s'.flights == [] && s'.booked == s.booked + [Stamped(now, cost)]
  {
  }

  ghost predicate Drained(booked: seq<Stamped<int>>, lamports: int, clock: int) {
    AddsUp(booked, lamports) && UpTo(booked, clock)
  }

  /** The ledger after a round, if its gate opens. */
  lemma RoundNext(c: Config, s: Ledger, fee: nat, rent: nat, now: int) returns (s3: Ledger)
    requires s.B().CanSpend(c, Finite(fee + rent), Crank, now).1 && s.flights == []
    ensures s3 == RunFrom(c, s, Round(fee, rent, now))
    ensures s3.l == BudgetLog.Step(c, BudgetLog.Step(c, BudgetLog.Step(c, s.l,
                      BudgetLog.Call(now, BudgetLog.CanSpend(Finite(fee + rent), Crank))),
                      BudgetLog.Call(now, BudgetLog.RecordTx(Finite(fee + rent), Success))),
                      BudgetLog.Call(now + RECONCILE_DELAY_MS, BudgetLog.Adjust(Finite(fee + rent), Finite(fee))))
    ensures s3.flights == [] && s3.booked == s.booked + [Stamped(now, fee + rent)]
  {
    var round := Round(fee, rent, now);
    var s1 := Next(c, s, round[0]);
    SpendNext(c, s, fee + rent, now, s1);
    var s2 := Next(c, s1, round[1]);
    SettleNext(c, s1, fee + rent, now, s2);
    s3 := Next(c, s2, round[2]);
    ReconcileNext(c, s2, round[2], fee + rent, fee,
                  BudgetLog.Call(now + RECONCILE_DELAY_MS, BudgetLog.Adjust(Finite(fee + rent), Finite(fee))), s3);
    RunThree(c, s, round[0], round[1], round[2], s1, s2, s3);
  }

  function RunFrom(c: Config, s: Ledger, acts: seq<Act>): Ledger
    decreases |acts|
  {
    if acts == [] then s else RunFrom(c, Next(c, s, acts[0]), acts[1..])
  }

  lemma {:induction false} RunOn(c: Config, acts: seq<Act>, more: seq<Act>, s: Ledger)
    requires s == Run(c, acts)
    ensures Run(c, acts + more) == RunFrom(c, s, more)
    decreases |more|
  {
    if more == [] {
      assert acts + more == acts;
    } else {
      RunOneMore(c, acts, more[0], s);
      assert acts + more == acts + [more[0]] + more[1..];
      RunOn(c, acts + [more[0]], more[1..], Next(c, s, more[0]));
    }
  }

  lemma RunThree(c: Config, s: Ledger, a0: Act, a1: Act, a2: Act, s1: Ledger, s2: Ledger, s3: Ledger)
    requires s1 == Next(c, s, a0) && s2 == Next(c, s1, a1) && s3 == Next(c, s2, a2)
    ensures s3 == RunFrom(c, s, [a0, a1, a2])
  {
    assert [a0, a1, a2][1..] == [a1, a2] && [a1, a2][1..] == [a2] && [a2][1..] == [];
    assert RunFrom(c, s2, [a2]) == s3;
    assert RunFrom(c, s1, [a1, a2]) == s3;
  }

  lemma Times(c: Config, j: nat, k: nat)
    requires j < k
    ensures TimeOf(c, j) + c.cycleWindowMs <= TimeOf(c, k)
  {
    if j + 1 < k { Times(c, j, k - 1); }
  }

  lemma RoundClocked(before: seq<Act>, fee: nat, rent: nat, now: int)
    requires Clocked(before) && (before != [] ==> LastNow(before) <= now) && now > 0
    ensures Clocked(before + Round(fee, rent, now))
    ensures LastNow(before + Round(fee, rent, now)) == now + RECONCILE_DELAY_MS
  {
    forall i | 0 <= i < |before| ensures before[i].now <= now {
      assert before[i].now <= before[|before| - 1].now;
    }
  }

  lemma {:induction false} Clocks(c: Config, fee: nat, rent: nat, k: nat)
    requires c.cycleWindowMs > RECONCILE_DELAY_MS
    ensures Clocked(Provision(c, fee, rent, k))
    ensures k > 0 ==> LastNow(Provision(c, fee, rent, k)) == TimeOf(c, k - 1) + RECONCILE_DELAY_MS
    ensures Provision(c, fee, rent, k) != [] <==> k > 0
  {
    if k > 0 {
      Clocks(c, fee, rent, k - 1);
      if k > 1 { Times(c, k - 2, k - 1); }
      RoundClocked(Provision(c, fee, rent, k - 1), fee, rent, TimeOf(c, k - 1));
    }
  }

  function Clock(c: Config, k: nat): int {
    if k == 0 then 0 else TimeOf(c, k - 1) + RECONCILE_DELAY_MS
  }

  function Window(c: Config, k: nat): int {
    if k == 0 then 0 else TimeOf(c, k - 1)
  }

  /** What k rounds leave: `spent` on the hour's log, `drained` from the wallet. */
  ghost predicate Left(c: Config, s: Ledger, spent: nat, drained: nat, k: nat) {
    && Calm(c, s.l, spent, 0, 0, Clock(c, k)) && s.flights == []
    && s.B().cycleStartMs == Window(c, k) && Drained(s.booked, drained, Window(c, k))
  }

  lemma Drain(booked: seq<Stamped<int>>, lamports: int, clock: int, now: int, cost: nat)
    requires Drained(booked, lamports, clock) && clock <= now && now >= 1
    ensures Drained(booked + [Stamped(now, cost)], lamports + cost, now)
  {
    OneMoreEvent(booked, Stamped(now, cost), lamports);
  }

  /** One more round, from any calm ledger. */
  lemma RoundAt(c: Config, s: Ledger, fee: nat, rent: nat, spent: nat, clock: int, now: int)
    returns (s3: Ledger)
    requires Calm(c, s.l, spent, 0, 0, clock) && clock <= now && 0 < now <= HOUR_MS && rent > 0 && s.flights == []
    requires s.B().cycleStartMs == 0 || now - s.B().cycleStartMs >= c.cycleWindowMs
    requires c.cycleWindowMs > RECONCILE_DELAY_MS && c.txSuccessRateThreshold <= 1.0 && c.maxTxPerCycle >= 1
    requires fee + rent <= c.maxSolPerCycle
    requires spent + fee + rent <= c.maxSolPerHour && spent + fee + rent <= c.maxSolPerDay
    ensures s3 == RunFrom(c, s, Round(fee, rent, now))
    ensures Calm(c, s3.l, spent + fee, 0, 0, now + RECONCILE_DELAY_MS) && s3.B().cycleStartMs == now
    ensures s3.flights == [] && s3.booked == s.booked + [Stamped(now, fee + rent)]
  {
    var l3 := OneRound(c, s.l, fee, rent, spent, clock, now,
                       BudgetLog.Call(now, BudgetLog.CanSpend(Finite(fee + rent), Crank)),
                       BudgetLog.Call(now, BudgetLog.RecordTx(Finite(fee + rent), Success)),
                       BudgetLog.Call(now + RECONCILE_DELAY_MS, BudgetLog.Adjust(Finite(fee + rent), Finite(fee))));
    s3 := RoundNext(c, s, fee, rent, now);
  }

  lemma LeftNext(c: Config, s: Ledger, fee: nat, rent: nat, spent: nat, drained: nat, k: nat, s3: Ledger)
    requires Left(c, s, spent, drained, k) && Window(c, k) <= TimeOf(c, k)
    requires Calm(c, s3.l, spent + fee, 0, 0, TimeOf(c, k) + RECONCILE_DELAY_MS) && s3.B().cycleStartMs == TimeOf(c, k)
    requires s3.flights == [] && s3.booked == s.booked + [Stamped(TimeOf(c, k), fee + rent)]
    ensures Left(c, s3, spent + fee, drained + fee + rent, k + 1)
  {
    Drain(s.booked, drained, Window(c, k), TimeOf(c, k), fee + rent);
  }

  lemma Timing(c: Config, k: nat)
    requires c.cycleWindowMs > RECONCILE_DELAY_MS && TimeOf(c, k) <= HOUR_MS
    ensures Window(c, k) <= Clock(c, k) <= TimeOf(c, k) && 0 < TimeOf(c, k) <= HOUR_MS
    ensures Window(c, k) == 0 || TimeOf(c, k) - Window(c, k) >= c.cycleWindowMs
  {
    if k > 0 { Times(c, k - 1, k); }
  }

  lemma OneMoreRound(c: Config, s: Ledger, fee: nat, rent: nat, spent: nat, drained: nat, k: nat, round: seq<Act>)
    returns (s3: Ledger)
    requires Left(c, s, spent, drained, k) && rent > 0 && TimeOf(c, k) <= HOUR_MS
    requires c.cycleWindowMs > RECONCILE_DELAY_MS && c.txSuccessRateThreshold <= 1.0 && c.maxTxPerCycle >= 1
    requires fee + rent <= c.maxSolPerCycle
    requires spent + fee + rent <= c.maxSolPerHour && spent + fee + rent <= c.maxSolPerDay
    requires round == Round(fee, rent, TimeOf(c, k))
    ensures s3 == RunFrom(c, s, round) && Left(c, s3, spent + fee, drained + fee + rent, k + 1)
  {
    Timing(c, k);
    s3 := RoundAt(c, s, fee, rent, spent, Clock(c, k), TimeOf(c, k));
    LeftNext(c, s, fee, rent, spent, drained, k, s3);
  }

  lemma NothingLeft(c: Config)
    ensures Left(c, Empty, 0, 0, 0)
  {
  }

  lemma {:induction false} Provisioned(c: Config, fee: nat, rent: nat, k: nat) returns (s: Ledger)
    requires c.cycleWindowMs > RECONCILE_DELAY_MS && c.txSuccessRateThreshold <= 1.0 && c.maxTxPerCycle >= 1
    requires rent > 0 && fee + rent <= c.maxSolPerCycle && (k > 0 ==> TimeOf(c, k - 1) <= HOUR_MS)
    requires k > 0 ==> Repeated(fee, k) + rent <= c.maxSolPerHour && Repeated(fee, k) + rent <= c.maxSolPerDay
    ensures s == Run(c, Provision(c, fee, rent, k)) && Left(c, s, Repeated(fee, k), Repeated(fee + rent, k), k)
  {
    if k == 0 {
      s := Empty;
      NothingLeft(c);
    } else {
      if k > 1 { Times(c, k - 2, k - 1); }
      var s0 := Provisioned(c, fee, rent, k - 1);
      var before, round := Provision(c, fee, rent, k - 1), Round(fee, rent, TimeOf(c, k - 1));
      s := ProvisionedNext(c, s0, fee, rent, Repeated(fee, k - 1), Repeated(fee + rent, k - 1), k - 1, before, round);
    }
  }

  lemma ProvisionedNext(c: Config, s: Ledger, fee: nat, rent: nat, spent: nat, drained: nat, k: nat,
                        before: seq<Act>, round: seq<Act>) returns (s3: Ledger)
    requires s == Run(c, before) && Left(c, s, spent, drained, k) && rent > 0 && TimeOf(c, k) <= HOUR_MS
    requires c.cycleWindowMs > RECONCILE_DELAY_MS && c.txSuccessRateThreshold <= 1.0 && c.maxTxPerCycle >= 1
    requires fee + rent <= c.maxSolPerCycle
    requires spent + fee + rent <= c.maxSolPerHour && spent + fee + rent <= c.maxSolPerDay
    requires round == Round(fee, rent, TimeOf(c, k))
    ensures s3 == Run(c, before + round) && Left(c, s3, spent + fee, drained + fee + rent, k + 1)
  {
    RunOn(c, before, round, s);
    s3 := OneMoreRound(c, s, fee, rent, spent, drained, k, round);
  }

  /**
   The hour cap does not bound what provisioning drains: k confirmed sends within one hour
   book k times fee and rent, while the hour's log says k times the fee. As long as the
   fees fit together with one rent, nothing is refused or halted.
   */
  lemma RentEscapesTheHourCap(c: Config, fee: nat, rent: nat, k: nat) returns (acts: seq<Act>, s: Ledger)
    requires c.cycleWindowMs > RECONCILE_DELAY_MS && c.txSuccessRateThreshold <= 1.0 && c.maxTxPerCycle >= 1
    requires rent > 0 && fee + rent <= c.maxSolPerCycle && 0 < k && TimeOf(c, k - 1) <= HOUR_MS
    requires Repeated(fee, k) + rent <= c.maxSolPerHour && Repeated(fee, k) + rent <= c.maxSolPerDay
    ensures acts == Provision(c, fee, rent, k) && Clocked(acts) && s == Run(c, acts) && s.B().halted.None?
    ensures BudgetSliding.Slid(s.booked, HOUR_MS, TimeOf(c, k - 1)) == Repeated(fee + rent, k)
    ensures Total(s.l.hourLog, TimeOf(c, k - 1) - HOUR_MS) == Repeated(fee, k)
  {
    Clocks(c, fee, rent, k);
    acts := Provision(c, fee, rent, k);
    s := Provisioned(c, fee, rent, k);
    ReadOff(c, s, Repeated(fee, k), Repeated(fee + rent, k), k);
  }

  lemma ReadOff(c: Config, s: Ledger, spent: nat, drained: nat, k: nat)
    requires Left(c, s, spent, drained, k) && k > 0 && TimeOf(c, k - 1) <= HOUR_MS
    ensures BudgetSliding.Slid(s.booked, HOUR_MS, TimeOf(c, k - 1)) == drained
    ensures Total(s.l.hourLog, TimeOf(c, k - 1) - HOUR_MS) == spent && s.B().halted.None?
  {
    var last := TimeOf(c, k - 1);
    WithinIsSince(s.booked, last - HOUR_MS, last + 1);
    AllRecent(s.booked, HOUR_MS, last, drained);
    AllRecent(s.l.hourLog, HOUR_MS, last, spent);
  }

  const Defaults := Config(200_000_000, 500_000_000, 3_000_000_000, 60, 10, 30_000, 60_000, 0.7, 10)
  const PORTFOLIO_RENT := (128 + 9347) * 3480 * 2

  /** With the defaults, an hour of provisioning portfolios can drain fifteen times the hour cap. */
  lemma DefaultsLetRentEscape(fee: nat) returns (acts: seq<Act>, s: Ledger)
    requires fee <= 3_600_000
    ensures Clocked(acts) && s == Run(Defaults, acts) && s.B().halted.None?
    ensures BudgetSliding.Slid(s.booked, HOUR_MS, TimeOf(Defaults, 119)) > 15 * Defaults.maxSolPerHour
  {
    RepeatedIsProduct(Defaults.cycleWindowMs, 119);
    RepeatedIsProduct(fee, 120);
    RepeatedIsProduct(fee + PORTFOLIO_RENT, 120);
    acts, s := RentEscapesTheHourCap(Defaults, fee, PORTFOLIO_RENT, 120);
  }
}
