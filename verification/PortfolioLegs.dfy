/** What one leg requires, which leg is the target, and where the prices are read. */
module PortfolioLegs {
  import opened Prelude
  import opened MarketBytes
  import opened MarketLayout
  import opened PortfolioHealth

  /**
   The requirement of a live, priced leg. Its notional is size times price in whole units,
   rounded up; the base is the maintenance rate on that, rounded down, but never below the
   floor; the penalty is size times the adverse distance of a known target, rounded up.
   */
  lemma LegRequirement(m: Market, risk: RiskParams, leg: Leg)
    requires leg.active && leg.basisPosQ != 0 && LegPrice(m, leg) > 0
    ensures var n, base := LegNotional(m, leg), LegMaintenance(m, risk, leg) - LegLag(m, leg);
            && (n - 1) * 1_000_000 < Abs(leg.basisPosQ) * LegPrice(m, leg) <= n * 1_000_000
            && base >= risk.minNonzeroMmReq && (base + 1) * 10_000 > n * risk.maintenanceMarginBps
            && (base == risk.minNonzeroMmReq || base * 10_000 <= n * risk.maintenanceMarginBps)
    ensures var target, price := RawTarget(m, leg), LegPrice(m, leg);
            var adverse := if leg.basisPosQ > 0 then price - target else target - price;
            if target > 0 && adverse > 0
            then (LegLag(m, leg) - 1) * 1_000_000 < Abs(leg.basisPosQ) * adverse <= LegLag(m, leg) * 1_000_000
            else LegLag(m, leg) == 0
  {
    BaseBounds(risk, LegNotional(m, leg));
  }

  lemma BaseBounds(risk: RiskParams, n: nat)
    ensures var base := BaseMaintenance(risk, n);
            && base >= risk.minNonzeroMmReq && (base + 1) * 10_000 > n * risk.maintenanceMarginBps
            && (base == risk.minNonzeroMmReq || base * 10_000 <= n * risk.maintenanceMarginBps)
  {
    Product(n, risk.maintenanceMarginBps);
    var x := n * risk.maintenanceMarginBps;
    assert x == x / 10_000 * 10_000 + x % 10_000;
  }

  /** The other legs require nothing: without size, inactive, or unpriceable. */
  lemma OtherLegsRequireNothing(m: Market, risk: RiskParams, leg: Leg)
    requires !leg.active || leg.basisPosQ == 0 || LegPrice(m, leg) <= 0
    ensures LegNotional(m, leg) == LegMaintenance(m, risk, leg) == 0
    ensures Live(leg) <==> leg.active && leg.basisPosQ != 0
    ensures Unpriceable(m, leg) <==> leg.active && leg.basisPosQ != 0 && LegPrice(m, leg) <= 0
  {
  }

  /** Closing leg i: its index and its whole size. */
  predicate Closes(h: Health, leg: Leg) {
    h.assetIndex == leg.assetIndex && h.closeQ == Abs(leg.basisPosQ)
  }

  /** A portfolio without a price for some live leg: the first such leg, sized up with what came before it. */
  lemma UnpricedTarget(m: Market, risk: RiskParams, pf: Portfolio) returns (i: nat)
    requires SomeUnpriceable(m, pf.legs)
    ensures i < |pf.legs| && Unpriceable(m, pf.legs[i]) && forall j :: 0 <= j < i ==> !Unpriceable(m, pf.legs[j])
    ensures var h := Verdict(m, risk, pf);
            && Closes(h, pf.legs[i]) && h.aggregateNotional == TotalNotional(m, pf.legs[..i])
            && h.deficit == Max(0, TotalMaintenance(m, risk, pf.legs[..i]) - Equity(pf))
  {
    var ms := MeasureAll(m, risk, pf.legs);
    SearchesAgree(m, risk, pf.legs);
    i := FirstUnpriceable(ms, 0);
    assert ms[i].live;
    MeasuredLegs(m, risk, pf.legs, ms);
    SumsOfPrefix(m, risk, pf.legs, i);
  }

  /** Any other portfolio: the first live leg. */
  lemma TargetLeg(m: Market, risk: RiskParams, pf: Portfolio) returns (i: nat)
    requires SomeLive(pf.legs) && !SomeUnpriceable(m, pf.legs)
    ensures i < |pf.legs| && Live(pf.legs[i]) && forall j :: 0 <= j < i ==> !Live(pf.legs[j])
    ensures Closes(Verdict(m, risk, pf), pf.legs[i])
  {
    var ms := MeasureAll(m, risk, pf.legs);
    SearchesAgree(m, risk, pf.legs);
    i := FirstLive(ms, 0);
    MeasuredLegs(m, risk, pf.legs, ms);
  }

  lemma MeasuredLegs(m: Market, risk: RiskParams, legs: seq<Leg>, ms: seq<Measured>)
    requires ms == MeasureAll(m, risk, legs)
    ensures forall j :: 0 <= j < |legs| ==>
              && (ms[j].live <==> Live(legs[j])) && (ms[j].Unpriceable() <==> Unpriceable(m, legs[j]))
              && ms[j].absPos == Abs(legs[j].basisPosQ) && ms[j].assetIndex == legs[j].assetIndex
  {
    forall j | 0 <= j < |legs| ensures ms[j] == MeasureOf(m, risk, legs[j]) {
      MeasureAt(m, risk, legs, j);
    }
  }

  lemma {:induction false} SumsOfPrefix(m: Market, risk: RiskParams, legs: seq<Leg>, i: nat)
    requires i <= |legs|
    ensures Notional(MeasureAll(m, risk, legs), i) == TotalNotional(m, legs[..i])
    ensures Maintenance(MeasureAll(m, risk, legs), i) == TotalMaintenance(m, risk, legs[..i])
  {
    if i > 0 {
      var ms := MeasureAll(m, risk, legs);
      assert ms[1..] == MeasureAll(m, risk, legs[1..]) && legs[..i][1..] == legs[1..][..i - 1];
      SumsFromTheRight(ms, i);
      SumsOfPrefix(m, risk, legs[1..], i - 1);
    }
  }

  /**
   Where a leg's price is read: eight bytes of its asset slot, counted from the start of the
   account; when these are missing or all zero, the market price stands in.
   */
  lemma PriceBytes(m: Market, leg: Leg)
    requires Matches(m.sdk)
    ensures var slot := m.sdk.marketGroupOff + 758 + leg.assetIndex * 1797 + 512;
            && (slot + 33 <= |m.data| && Le(m.data[slot + 25..slot + 33]) > 0 ==>
                  LegPrice(m, leg) == Le(m.data[slot + 25..slot + 33]))
            && (slot + 33 > |m.data| || Le(m.data[slot + 25..slot + 33]) == 0 ==> LegPrice(m, leg) == m.fallbackPrice)
            && RawTarget(m, leg) == if slot + 25 <= |m.data| then Le(m.data[slot + 17..slot + 25]) else 0
  {
  }
}
