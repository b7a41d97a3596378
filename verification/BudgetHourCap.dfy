/**
 When the hour cap bounds what is drained from the wallet: exactly when no send funds an
 account. How far the cap can be overrun otherwise, and that it is.
 */
module BudgetHourCap {
  import opened Prelude
  import opened Events
  import opened BudgetState
  import opened BudgetLedger
  import opened BudgetRent
  import BudgetLog
  import BudgetSliding
  import KeeperSend

  // ---------- what callers and receipts promise ----------

  /** A reconciled send: what its caller passed, and the fee on its receipt. */
  datatype Receipt = Receipt(microLamports: int, cu: int, jitoTip: int, extra: int, metaFee: int)
  {
    function Estimate(): Num {
      KeeperSend.EstimateLamportCost(Finite(microLamports), Finite(cu), Finite(jitoTip), Finite(extra))
    }

    function EstimatedFee(): Num {
      KeeperSend.EstimateLamportCost(Finite(microLamports), Finite(cu), Finite(0), Finite(0))
    }

    function Realized(): Num {
      Finite(KeeperSend.RealizedTotal(metaFee, jitoTip))
    }
  }

  /** A reconciliation of a send that funded at most r lamports of rent and paid the fee it was estimated to pay. */
  ghost predicate Funds(what: What, r: nat) {
    exists receipt: Receipt ::
      && what == Reconcile(receipt.Estimate(), receipt.Realized())
      && receipt.extra <= r && receipt.EstimatedFee() == Finite(receipt.metaFee)
  }

  ghost predicate FundsAtMost(acts: seq<Act>, r: nat) {
    forall i :: 0 <= i < |acts| && acts[i].what.Reconcile? ==> Funds(acts[i].what, r)
  }

  predicate HandsBack(what: What, r: nat) {
    what.Reconcile? && BudgetLog.Ok(what.estimated) && BudgetLog.Ok(what.realized) ==>
      what.estimated.v - what.realized.v <= r
  }

  ghost predicate HandsBackAtMost(acts: seq<Act>, r: nat) {
    forall i :: 0 <= i < |acts| ==> HandsBack(acts[i].what, r)
  }

  lemma FundingIsHandedBack(what: What, r: nat)
    requires Funds(what, r)
    ensures HandsBack(what, r)
  {
    var receipt: Receipt :| && what == Reconcile(receipt.Estimate(), receipt.Realized())
                            && receipt.extra <= r && receipt.EstimatedFee() == Finite(receipt.metaFee);
    KeeperSend.RentIsHandedBack(receipt.microLamports, receipt.cu, receipt.jitoTip, receipt.extra);
  }

  /** In every run whose reconciliations each hand back at most r, no hour books more than the hour cap. */
  ghost predicate HourCapGoverns(c: Config, r: nat) {
    forall acts: seq<Act>, t: int :: Clocked(acts) && HandsBackAtMost(acts, r) ==> Governed(c, acts, t)
  }

  /** The same over the runs whose reconciled sends each fund at most r lamports of rent. */
  ghost predicate HourCapGovernsSends(c: Config, r: nat) {
    forall acts: seq<Act>, t: int :: Clocked(acts) && FundsAtMost(acts, r) ==> Governed(c, acts, t)
  }

  predicate Governed(c: Config, acts: seq<Act>, t: int) {
    BudgetSliding.Slid(Run(c, acts).booked, HOUR_MS, t) <= c.maxSolPerHour
  }

  // ---------- nothing handed back ----------

  ghost predicate AllZero(log: seq<Stamped<int>>) {
    forall i :: 0 <= i < |log| ==> log[i].what == 0
  }

  lemma {:induction false} ZeroBetween(log: seq<Stamped<int>>, a: int, b: int)
    requires AllZero(log)
    ensures Between(log, a, b) == 0
  {
    if log != [] {
      ZeroBetween(log[1..], a, b);
      var head := if a <= log[0].ts < b then [log[0]] else [];
      SumAppend(head, Within(log[1..], a, b));
    }
  }

  lemma ZeroSteps(c: Config, s: Ledger, act: Act, s': Ledger)
    requires s' == Next(c, s, act) && AllZero(s.refunds) && HandsBack(act.what, 0)
    ensures AllZero(s'.refunds)
  {
  }

  lemma {:induction false} ZeroRefunds(c: Config, acts: seq<Act>)
    requires HandsBackAtMost(acts, 0)
    ensures AllZero(Run(c, acts).refunds)
  {
    if acts != [] {
      var front := acts[..|acts| - 1];
      ZeroRefunds(c, front);
      ZeroSteps(c, Run(c, front), acts[|acts| - 1], Run(c, acts));
    }
  }

  lemma NothingHandedBack(c: Config, acts: seq<Act>, t: int)
    requires Clocked(acts) && HandsBackAtMost(acts, 0)
    ensures Governed(c, acts, t)
  {
    var refunds := Run(c, acts).refunds;
    ZeroRefunds(c, acts);
    forall u ensures BudgetSliding.SlidAt(refunds, HOUR_MS, 0, u) && BudgetSliding.SlidAt(refunds, DAY_MS, 0, u) {
      ZeroBetween(refunds, u - HOUR_MS, u + 1);
      ZeroBetween(refunds, u - DAY_MS, u + 1);
    }
    BudgetSliding.SlidingDrainBound(c, acts, 0, 0, t);
  }

  // ---------- what the provisioning run hands back ----------

  lemma {:induction false} BetweenAtMost(log: seq<Stamped<int>>, a: int, b: int)
    requires NonNegative(log)
    ensures 0 <= Between(log, a, b) <= Sum(log)
  {
    if log != [] {
      BetweenAtMost(log[1..], a, b);
      var head := if a <= log[0].ts < b then [log[0]] else [];
      SumAppend(head, Within(log[1..], a, b));
    }
  }

  ghost predicate Amounts(refunds: seq<Stamped<int>>, sum: nat) {
    NonNegative(refunds) && Sum(refunds) == sum
  }

  lemma OneMoreAmount(refunds: seq<Stamped<int>>, sum: nat, e: Stamped<int>)
    requires Amounts(refunds, sum) && e.what >= 0
    ensures Amounts(refunds + [e], sum + e.what)
  {
    SumAppend(refunds, [e]);
    assert [e][1..] == [];
  }

  lemma AmountsBound(c: Config, s: Ledger, sum: nat)
    requires Amounts(s.refunds, sum)
    ensures BudgetSliding.Refunded(s, sum, sum)
  {
    var refunds := s.refunds;
    forall t ensures BudgetSliding.SlidAt(refunds, HOUR_MS, sum, t) && BudgetSliding.SlidAt(refunds, DAY_MS, sum, t) {
      BetweenAtMost(refunds, t - HOUR_MS, t + 1);
      BetweenAtMost(refunds, t - DAY_MS, t + 1);
    }
  }

  /** Sending and settling refund nothing. */
  lemma NoRefund(c: Config, s: Ledger, act: Act, s': Ledger)
    requires s' == Next(c, s, act) && !act.what.Reconcile?
    ensures s'.refunds == s.refunds
  {
  }

  lemma RoundRefunds(c: Config, s: Ledger, fee: nat, rent: nat, now: int, s3: Ledger)
    requires s3 == RunFrom(c, s, Round(fee, rent, now))
    ensures s3.refunds == s.refunds + [Stamped(now + RECONCILE_DELAY_MS, rent)]
  {
    var round := Round(fee, rent, now);
    var s1 := Next(c, s, round[0]);
    var s2 := Next(c, s1, round[1]);
    var end := Next(c, s2, round[2]);
    RunThree(c, s, round[0], round[1], round[2], s1, s2, end);
    NoRefund(c, s, round[0], s1);
    NoRefund(c, s1, round[1], s2);
    ReconcileNext(c, s2, round[2], fee + rent, fee,
                  BudgetLog.Call(now + RECONCILE_DELAY_MS, BudgetLog.Adjust(Finite(fee + rent), Finite(fee))), end);
  }

  lemma RoundAmounts(c: Config, s: Ledger, fee: nat, rent: nat, now: int, sum: nat, before: seq<Act>, acts: seq<Act>)
    requires s == Run(c, before) && Amounts(s.refunds, sum) && acts == before + Round(fee, rent, now)
    ensures Amounts(Run(c, acts).refunds, sum + rent)
  {
    var s3 := RunFrom(c, s, Round(fee, rent, now));
    RunOn(c, before, Round(fee, rent, now), s);
    RoundRefunds(c, s, fee, rent, now, s3);
    OneMoreAmount(s.refunds, sum, Stamped(now + RECONCILE_DELAY_MS, rent));
  }

  lemma {:induction false} ProvisionRefunds(c: Config, fee: nat, rent: nat, k: nat, acts: seq<Act>)
    requires acts == Provision(c, fee, rent, k)
    ensures Amounts(Run(c, acts).refunds, Repeated(rent, k))
  {
    if k > 0 {
      var before := Provision(c, fee, rent, k - 1);
      ProvisionRefunds(c, fee, rent, k - 1, before);
      RoundAmounts(c, Run(c, before), fee, rent, TimeOf(c, k - 1), Repeated(rent, k - 1), before, acts);
    }
  }

  // ---------- filling the hour ----------

  /** k provisioning sends, each confirmed and reconciled, and one more send for what the hour cap has left. */
  function Filling(c: Config, fee: nat, rent: nat, k: nat, last: nat): seq<Act> {
    Provision(c, fee, rent, k)
    + [Act(TimeOf(c, k), Spend(Finite(last), Crank)), Act(TimeOf(c, k), Settle(0, Success))]
  }

  /** k + 1 sends within an hour, one a cycle window, use up the hour cap, whatever the rent of k of them. */
  predicate Fills(c: Config, fee: nat, rent: nat, k: nat, last: nat) {
    && c.cycleWindowMs > RECONCILE_DELAY_MS && c.txSuccessRateThreshold <= 1.0 && c.maxTxPerCycle >= 1
    && TimeOf(c, k) <= HOUR_MS && c.maxSolPerHour <= c.maxSolPerDay
    && rent <= last <= c.maxSolPerCycle && fee + rent <= c.maxSolPerCycle
    && Repeated(fee, k) + last == c.maxSolPerHour
  }

  lemma FillingClocked(c: Config, fee: nat, rent: nat, k: nat, last: nat)
    requires c.cycleWindowMs > RECONCILE_DELAY_MS
    ensures Clocked(Filling(c, fee, rent, k, last))
  {
    var before := Provision(c, fee, rent, k);
    Clocks(c, fee, rent, k);
    if k > 0 { Times(c, k - 1, k); }
    forall i | 0 <= i < |before| ensures before[i].now <= TimeOf(c, k) {
      assert before[i].now <= before[|before| - 1].now;
    }
  }

  /** The gate lets the last send through. */
  lemma LastGate(c: Config, s: Ledger, spent: nat, drained: nat, k: nat, last: nat)
    requires Left(c, s, spent, drained, k) && TimeOf(c, k) <= HOUR_MS
    requires c.cycleWindowMs > RECONCILE_DELAY_MS && c.txSuccessRateThreshold <= 1.0 && c.maxTxPerCycle >= 1
    requires last <= c.maxSolPerCycle && spent + last <= c.maxSolPerHour && spent + last <= c.maxSolPerDay
    ensures s.B().CanSpend(c, Finite(last), Crank, TimeOf(c, k)).1 && s.flights == []
    ensures Drained(s.booked, drained, Window(c, k)) && Window(c, k) <= TimeOf(c, k)
  {
    Timing(c, k);
    GateOpens(c, s.l, spent, last, Clock(c, k), TimeOf(c, k));
  }

  /** The last send is booked, and nothing is handed back for it. */
  lemma LastSend(c: Config, s: Ledger, last: nat, spend: Act, settle: Act, s1: Ledger, s2: Ledger)
    requires s.B().CanSpend(c, Finite(last), Crank, spend.now).1 && s.flights == []
    requires spend.what == Spend(Finite(last), Crank) && settle.what == Settle(0, Success) && settle.now == spend.now
    requires s1 == Next(c, s, spend) && s2 == Next(c, s1, settle)
    ensures s2.booked == s.booked + [Stamped(spend.now, last)] && s2.refunds == s.refunds
  {
    SpendNext(c, s, last, spend.now, s1);
    SettleNext(c, s1, last, spend.now, s2);
    NoRefund(c, s, spend, s1);
    NoRefund(c, s1, settle, s2);
  }

  lemma LastSlid(booked: seq<Stamped<int>>, drained: nat, clock: int, now: int, last: nat, after: seq<Stamped<int>>)
    requires Drained(booked, drained, clock) && clock <= now && 1 <= now <= HOUR_MS
    requires after == booked + [Stamped(now, last)]
    ensures BudgetSliding.Slid(after, HOUR_MS, now) == drained + last
  {
    Drain(booked, drained, clock, now, last);
    WithinIsSince(after, now - HOUR_MS, now + 1);
    AllRecent(after, HOUR_MS, now, drained + last);
  }

  lemma {:induction false} RepeatedSum(x: nat, y: nat, k: nat)
    ensures Repeated(x + y, k) == Repeated(x, k) + Repeated(y, k)
  {
    if k > 0 { RepeatedSum(x, y, k - 1); }
  }

  lemma {:induction false} RepeatedGrows(x: nat, k: nat)
    ensures k > 0 ==> Repeated(x, k - 1) + x == Repeated(x, k)
    ensures x > 0 ==> Repeated(x, k) >= k
  {
    if k > 0 { RepeatedGrows(x, k - 1); }
  }

  lemma FilledBy(c: Config, fee: nat, rent: nat, k: nat, last: nat, before: seq<Act>, acts: seq<Act>)
    returns (s0: Ledger, s: Ledger)
    requires Fills(c, fee, rent, k, last) && rent > 0
    requires before == Provision(c, fee, rent, k) && acts == Filling(c, fee, rent, k, last)
    ensures s0 == Run(c, before) && s == Run(c, acts) && s.refunds == s0.refunds
    ensures BudgetSliding.Slid(s.booked, HOUR_MS, TimeOf(c, k)) == Repeated(fee + rent, k) + last
  {
    var now := TimeOf(c, k);
    var spend, settle := Act(now, Spend(Finite(last), Crank)), Act(now, Settle(0, Success));
    if k > 0 { Times(c, k - 1, k); }
    s0 := Provisioned(c, fee, rent, k);
    LastGate(c, s0, Repeated(fee, k), Repeated(fee + rent, k), k, last);
    var s1 := Next(c, s0, spend);
    s := Next(c, s1, settle);
    RunTwo(c, before, spend, settle, s0);
    LastSend(c, s0, last, spend, settle, s1, s);
    LastSlid(s0.booked, Repeated(fee + rent, k), Window(c, k), now, last, s.booked);
  }

  /**
   The sliding drain bound is reached: whenever sends can use up the hour cap, they can book
   all of it and, on top, all the rent reconciliation handed back meanwhile.
   */
  lemma DrainBoundIsReached(c: Config, fee: nat, rent: nat, k: nat, last: nat) returns (acts: seq<Act>, s: Ledger)
    requires Fills(c, fee, rent, k, last) && rent > 0
    ensures acts == Filling(c, fee, rent, k, last) && Clocked(acts) && s == Run(c, acts)
    ensures BudgetSliding.Refunded(s, Repeated(rent, k), Repeated(rent, k))
    ensures BudgetSliding.Slid(s.booked, HOUR_MS, TimeOf(c, k)) == c.maxSolPerHour + Repeated(rent, k)
  {
    var before := Provision(c, fee, rent, k);
    acts := Filling(c, fee, rent, k, last);
    FillingClocked(c, fee, rent, k, last);
    var s0;
    s0, s := FilledBy(c, fee, rent, k, last, before, acts);
    ProvisionRefunds(c, fee, rent, k, before);
    AmountsBound(c, s, Repeated(rent, k));
    RepeatedSum(fee, rent, k);
  }

  // ---------- exactly when the hour cap governs ----------

  /** The rounds of the filling run are sends whose caller passed the rent as `extraLamports`. */
  lemma {:induction false} ProvisionFunds(c: Config, fee: nat, rent: nat, k: nat)
    requires fee >= KeeperSend.BASE_FEE_LAMPORTS
    ensures FundsAtMost(Provision(c, fee, rent, k), rent)
  {
    if k > 0 {
      var round := Round(fee, rent, TimeOf(c, k - 1));
      ProvisionFunds(c, fee, rent, k - 1);
      var tip := fee - KeeperSend.BASE_FEE_LAMPORTS;
      var receipt := Receipt(0, 0, tip, rent, KeeperSend.BASE_FEE_LAMPORTS);
      assert round[2].what == Reconcile(receipt.Estimate(), receipt.Realized());
      assert Funds(round[2].what, rent);
    }
  }

  lemma OneLamportSuffices(c: Config, fee: nat, k: nat, last: nat, r: nat)
    requires Fills(c, fee, 1, k, last) && k > 0 && fee >= KeeperSend.BASE_FEE_LAMPORTS && r > 0
    ensures !HourCapGovernsSends(c, r)
  {
    var acts, s := DrainBoundIsReached(c, fee, 1, k, last);
    ProvisionFunds(c, fee, 1, k);
    FundsMore(acts, 1, r);
    RepeatedGrows(1, k);
    assert !Governed(c, acts, TimeOf(c, k));
  }

  lemma FundsMore(acts: seq<Act>, r: nat, more: nat)
    requires FundsAtMost(acts, r) && r <= more
    ensures FundsAtMost(acts, more)
  {
    forall i | 0 <= i < |acts| && acts[i].what.Reconcile? ensures Funds(acts[i].what, more) {
      assert Funds(acts[i].what, r);
    }
  }

  lemma GovernsSends(c: Config, r: nat)
    requires HourCapGoverns(c, r)
    ensures HourCapGovernsSends(c, r)
  {
    forall acts: seq<Act>, t: int | Clocked(acts) && FundsAtMost(acts, r) ensures Governed(c, acts, t) {
      forall i | 0 <= i < |acts| ensures HandsBack(acts[i].what, r) {
        if acts[i].what.Reconcile? { FundingIsHandedBack(acts[i].what, r); }
      }
    }
  }

  /**
   When the hour cap governs what is drained in an hour, exactly. Take any configuration
   whose hour cap a few sends can use up, in fees of at least the base fee. Then it holds in
   every run if and only if reconciliation hands nothing back; and, over sends that pay the
   fee they were estimated to pay, if and only if no caller passes any `extraLamports`.
   */
  lemma HourCapExactly(c: Config, fee: nat, k: nat, last: nat, r: nat)
    requires Fills(c, fee, 1, k, last) && k > 0 && fee >= KeeperSend.BASE_FEE_LAMPORTS
    ensures HourCapGoverns(c, r) <==> r == 0
    ensures HourCapGovernsSends(c, r) <==> r == 0
  {
    if r == 0 {
      forall acts: seq<Act>, t: int | Clocked(acts) && HandsBackAtMost(acts, r) ensures Governed(c, acts, t) {
        NothingHandedBack(c, acts, t);
      }
      GovernsSends(c, r);
    } else {
      OneLamportSuffices(c, fee, k, last, r);
      if HourCapGoverns(c, r) { GovernsSends(c, r); }
    }
  }

  /** With the defaults, the hour cap governs exactly as long as no account is funded. */
  lemma DefaultHourCapExactly(r: nat)
    ensures HourCapGoverns(Defaults, r) <==> r == 0
    ensures HourCapGovernsSends(Defaults, r) <==> r == 0
  {
    HourCapExactly(Defaults, 166_666_666, 2, 166_666_668, r);
  }
}
