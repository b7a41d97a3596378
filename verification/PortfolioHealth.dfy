/** Is a portfolio liquidatable? The leg-by-leg evaluator and what it decides. */
module PortfolioHealth {
  import opened Prelude
  import opened MarketBytes
  import opened MarketLayout

  const PRICE_E6_DIVISOR := 1_000_000
  const BPS_MULTIPLIER := 10_000

  datatype Leg = Leg(active: bool, assetIndex: nat, basisPosQ: int)

  datatype Portfolio = Portfolio(capital: int, pnl: int, feeCredits: int, legs: seq<Leg>)

  datatype RiskParams = RiskParams(maintenanceMarginBps: nat, minNonzeroMmReq: nat)

  /** The account bytes the prices come from, and the market-level fallback price. */
  datatype Market = Market(sdk: Sdk, data: seq<byte>, fallbackPrice: int)

  datatype Health = Health(
    liquidatable: bool, closeQ: int, assetIndex: int, deficit: int,
    aggregateNotional: int, notionalComplete: bool)

  // ---------- prices ----------

  /** A u64 of the asset's engine slot, 0 when the account is too short for it. */
  function SlotField(m: Market, assetIndex: nat, off: nat): nat {
    var at := m.sdk.EngineAssetSlot(assetIndex) + off;
    if at + 8 > |m.data| then 0 else Field(m.data, at, 8)
  }

  /** The leg's own effective price, or the market price where that reads as 0. */
  function LegPrice(m: Market, leg: Leg): int {
    var own := SlotField(m, leg.assetIndex, ASSET_EFFECTIVE_PRICE_OFF);
    if own != 0 then own else m.fallbackPrice
  }

  function RawTarget(m: Market, leg: Leg): nat {
    SlotField(m, leg.assetIndex, ASSET_RAW_ORACLE_TARGET_PRICE_OFF)
  }

  /** How far the raw target is on the wrong side of the effective price for the holder. */
  function AdverseDelta(long: bool, effectivePrice: int, rawTargetPrice: int): nat {
    if long then Max(0, effectivePrice - rawTargetPrice) else Max(0, rawTargetPrice - effectivePrice)
  }

  /** The engine's penalty, rounded up; 0 when a price is unknown or the target is not adverse. */
  function TargetEffectiveLagPenalty(absPos: int, long: bool, effectivePrice: int, rawTargetPrice: int): (penalty: nat)
    ensures penalty > 0 <==> absPos > 0 && effectivePrice > 0 && rawTargetPrice > 0
                             && (if long then rawTargetPrice < effectivePrice else rawTargetPrice > effectivePrice)
    ensures penalty > 0 ==>
              (penalty - 1) * PRICE_E6_DIVISOR < absPos * AdverseDelta(long, effectivePrice, rawTargetPrice)
              <= penalty * PRICE_E6_DIVISOR
  {
    if rawTargetPrice <= 0 || effectivePrice <= 0 || absPos <= 0 then 0
    else
      var adverseDelta :=
        if long then (if rawTargetPrice < effectivePrice then effectivePrice - rawTargetPrice else 0)
        else (if rawTargetPrice > effectivePrice then rawTargetPrice - effectivePrice else 0);
      if adverseDelta == 0 then 0
      else
        Product(absPos, adverseDelta);
        CeilDiv(absPos * adverseDelta, PRICE_E6_DIVISOR)
  }

  // ---------- what a leg amounts to ----------

  predicate Live(leg: Leg) {
    leg.active && leg.basisPosQ != 0
  }

  predicate Unpriceable(m: Market, leg: Leg) {
    Live(leg) && LegPrice(m, leg) <= 0
  }

  /** Size times price in whole units, rounded up as the engine rounds it. */
  function RiskNotionalCeil(absPos: nat, price: nat): (notional: nat)
    ensures notional > 0 <==> absPos > 0 && price > 0
    ensures notional > 0 ==> (notional - 1) * PRICE_E6_DIVISOR < absPos * price <= notional * PRICE_E6_DIVISOR
  {
    Product(absPos, price);
    CeilDiv(absPos * price, PRICE_E6_DIVISOR)
  }

  /** 0 for a leg that is not live or has no price. */
  function LegNotional(m: Market, leg: Leg): (notional: nat)
    ensures notional > 0 <==> Live(leg) && !Unpriceable(m, leg)
  {
    var price := LegPrice(m, leg);
    if !Live(leg) || price <= 0 then 0 else RiskNotionalCeil(Abs(leg.basisPosQ), price)
  }

  function LegLag(m: Market, leg: Leg): nat {
    TargetEffectiveLagPenalty(Abs(leg.basisPosQ), leg.basisPosQ > 0, LegPrice(m, leg), RawTarget(m, leg))
  }

  function BaseMaintenance(risk: RiskParams, notional: nat): nat {
    Product(notional, risk.maintenanceMarginBps);
    Max(notional * risk.maintenanceMarginBps / BPS_MULTIPLIER, risk.minNonzeroMmReq)
  }

  function LegMaintenance(m: Market, risk: RiskParams, leg: Leg): nat {
    var notional := LegNotional(m, leg);
    if notional == 0 then 0 else BaseMaintenance(risk, notional) + LegLag(m, leg)
  }

  datatype Measured = Measured(
    live: bool, price: int, absPos: nat, assetIndex: nat, notional: nat, maintenance: nat)
  {
    predicate Unpriceable() {
      live && price <= 0
    }
  }

  function MeasureOf(m: Market, risk: RiskParams, leg: Leg): Measured {
    Measured(Live(leg), LegPrice(m, leg), Abs(leg.basisPosQ), leg.assetIndex,
             LegNotional(m, leg), LegMaintenance(m, risk, leg))
  }

  function MeasureAll(m: Market, risk: RiskParams, legs: seq<Leg>): (all: seq<Measured>)
    ensures |all| == |legs|
  {
    if legs == [] then [] else [MeasureOf(m, risk, legs[0])] + MeasureAll(m, risk, legs[1..])
  }

  lemma {:induction false} MeasureAt(m: Market, risk: RiskParams, legs: seq<Leg>, i: nat)
    requires i < |legs|
    ensures MeasureAll(m, risk, legs)[i] == MeasureOf(m, risk, legs[i])
  {
    if i > 0 { MeasureAt(m, risk, legs[1..], i - 1); }
  }

  // ---------- what a portfolio amounts to ----------

  /** The first n legs together. */
  function Notional(ms: seq<Measured>, n: nat): nat
    requires n <= |ms|
  {
    if n == 0 then 0 else Notional(ms, n - 1) + ms[n - 1].notional
  }

  function Maintenance(ms: seq<Measured>, n: nat): nat
    requires n <= |ms|
  {
    if n == 0 then 0 else Maintenance(ms, n - 1) + ms[n - 1].maintenance
  }

  /** Gains count for nothing, losses and fee debt in full. */
  function Equity(pf: Portfolio): int {
    pf.capital + Min(pf.pnl, 0) + Min(pf.feeCredits, 0)
  }

  /** The first live leg at or after i. */
  function FirstLive(ms: seq<Measured>, i: nat): (k: nat)
    requires i <= |ms|
    ensures i <= k <= |ms| && (k < |ms| ==> ms[k].live) && forall j :: i <= j < k ==> !ms[j].live
    decreases |ms| - i
  {
    if i == |ms| || ms[i].live then i else FirstLive(ms, i + 1)
  }

  function FirstUnpriceable(ms: seq<Measured>, i: nat): (k: nat)
    requires i <= |ms|
    ensures i <= k <= |ms| && (k < |ms| ==> ms[k].Unpriceable()) && forall j :: i <= j < k ==> !ms[j].Unpriceable()
    decreases |ms| - i
  {
    if i == |ms| || ms[i].Unpriceable() then i else FirstUnpriceable(ms, i + 1)
  }

  /** The closed form the evaluator refines. */
  function HealthOf(equity: int, ms: seq<Measured>): Health {
    var k, u := FirstLive(ms, 0), FirstUnpriceable(ms, 0);
    if k == |ms| then Health(false, 0, -1, 0, 0, true)
    else if u < |ms| then
      Health(true, ms[u].absPos, ms[u].assetIndex, Max(0, Maintenance(ms, u) - equity), Notional(ms, u), false)
    else
      var maintenance := Maintenance(ms, |ms|);
      Health(equity <= 0 || equity < maintenance, ms[k].absPos, ms[k].assetIndex,
             Max(0, maintenance - equity), Notional(ms, |ms|), true)
  }

  // ---------- the evaluator ----------

  /** One leg: its price, its notional, and its clamped maintenance plus the lag penalty. */
  method MeasureLeg(m: Market, risk: RiskParams, legs: seq<Leg>, i: nat) returns (leg: Measured)
    requires i < |legs|
    ensures leg == MeasureAll(m, risk, legs)[i]
    ensures !leg.live ==> leg.notional == leg.maintenance == 0
  {
    MeasureAt(m, risk, legs, i);
    var absPos := if legs[i].basisPosQ < 0 then -legs[i].basisPosQ else legs[i].basisPosQ;
    var live := legs[i].active && legs[i].basisPosQ != 0;
    var legPrice := LegPrice(m, legs[i]);
    var notional, maintenance := 0, 0;
    if live && legPrice > 0 {
      notional := RiskNotionalCeil(absPos, legPrice);
      if notional != 0 {
        maintenance := BaseMaintenance(risk, notional);
        var rawTarget := RawTarget(m, legs[i]);
        var lagPenalty := TargetEffectiveLagPenalty(absPos, legs[i].basisPosQ > 0, legPrice, rawTarget);
        maintenance := maintenance + lagPenalty;
      }
    }
    leg := Measured(live, legPrice, absPos, legs[i].assetIndex, notional, maintenance);
  }

  /** One pass over the legs, returning early at the first leg without a price. */
  method EvaluateV17PortfolioHealth(pf: Portfolio, m: Market, risk: RiskParams) returns (health: Health)
    ensures health == HealthOf(Equity(pf), MeasureAll(m, risk, pf.legs))
  {
    var feeDebt := if pf.feeCredits < 0 then -pf.feeCredits else 0;
    var conservativePnl := if pf.pnl < 0 then pf.pnl else 0;
    var equity := pf.capital + conservativePnl - feeDebt;

    var aggregateMaintenance: nat := 0;
    var firstActiveAssetIndex: int := -1;
    var candidateCloseQ: int := 0;
    var aggregateNotional: nat := 0;
    ghost var ms := MeasureAll(m, risk, pf.legs);
    ghost var k, u := FirstLive(ms, 0), FirstUnpriceable(ms, 0);
    for i := 0 to |pf.legs|
      invariant i <= u
      invariant firstActiveAssetIndex < 0 <==> i <= k
      invariant k < i ==> firstActiveAssetIndex == ms[k].assetIndex && candidateCloseQ == ms[k].absPos
      invariant aggregateNotional == Notional(ms, i)
      invariant aggregateMaintenance == Maintenance(ms, i)
    {
      var leg := MeasureLeg(m, risk, pf.legs, i);
      if leg.live {
        if firstActiveAssetIndex < 0 {
          firstActiveAssetIndex, candidateCloseQ := leg.assetIndex, leg.absPos;
        }
        if leg.price <= 0 {
          return Health(true, leg.absPos, leg.assetIndex,
                        if aggregateMaintenance > equity then aggregateMaintenance - equity else 0,
                        aggregateNotional, false);
        }
        aggregateNotional := aggregateNotional + leg.notional;
        aggregateMaintenance := aggregateMaintenance + leg.maintenance;
      }
    }
    if firstActiveAssetIndex < 0 {
      return Health(false, 0, -1, 0, 0, true);
    }
    var liquidatable := equity <= 0 || equity < aggregateMaintenance;
    var deficit := if aggregateMaintenance > equity then aggregateMaintenance - equity else 0;
    return Health(liquidatable, candidateCloseQ, firstActiveAssetIndex, deficit, aggregateNotional, true);
  }

  // ---------- what a verdict means, whatever the order of the legs ----------

  function TotalNotional(m: Market, legs: seq<Leg>): nat {
    if legs == [] then 0 else LegNotional(m, legs[0]) + TotalNotional(m, legs[1..])
  }

  function TotalMaintenance(m: Market, risk: RiskParams, legs: seq<Leg>): nat {
    if legs == [] then 0 else LegMaintenance(m, risk, legs[0]) + TotalMaintenance(m, risk, legs[1..])
  }

  ghost predicate SomeLive(legs: seq<Leg>) {
    exists leg :: leg in legs && Live(leg)
  }

  ghost predicate SomeUnpriceable(m: Market, legs: seq<Leg>) {
    exists leg :: leg in legs && Unpriceable(m, leg)
  }

  function Verdict(m: Market, risk: RiskParams, pf: Portfolio): Health {
    HealthOf(Equity(pf), MeasureAll(m, risk, pf.legs))
  }

  lemma {:induction false} SumsFromTheRight(ms: seq<Measured>, n: nat)
    requires 0 < n <= |ms|
    ensures Notional(ms, n) == ms[0].notional + Notional(ms[1..], n - 1)
    ensures Maintenance(ms, n) == ms[0].maintenance + Maintenance(ms[1..], n - 1)
  {
    if n > 1 {
      SumsFromTheRight(ms, n - 1);
    }
  }

  lemma {:induction false} SumsAreTotals(m: Market, risk: RiskParams, legs: seq<Leg>)
    ensures var ms := MeasureAll(m, risk, legs);
            Notional(ms, |ms|) == TotalNotional(m, legs) && Maintenance(ms, |ms|) == TotalMaintenance(m, risk, legs)
  {
    if legs != [] {
      var ms := MeasureAll(m, risk, legs);
      assert ms[1..] == MeasureAll(m, risk, legs[1..]);
      SumsFromTheRight(ms, |ms|);
      SumsAreTotals(m, risk, legs[1..]);
    }
  }

  lemma SearchesAgree(m: Market, risk: RiskParams, legs: seq<Leg>)
    ensures var ms := MeasureAll(m, risk, legs);
            && (FirstLive(ms, 0) < |ms| <==> SomeLive(legs))
            && (FirstUnpriceable(ms, 0) < |ms| <==> SomeUnpriceable(m, legs))
  {
    var ms := MeasureAll(m, risk, legs);
    forall i | 0 <= i < |legs|
      ensures (ms[i].live <==> Live(legs[i])) && (ms[i].Unpriceable() <==> Unpriceable(m, legs[i]))
    {
      MeasureAt(m, risk, legs, i);
    }
    var k, u := FirstLive(ms, 0), FirstUnpriceable(ms, 0);
    if k < |ms| { assert legs[k] in legs; }
    if u < |ms| { assert legs[u] in legs; }
    if SomeLive(legs) {
      var leg :| leg in legs && Live(leg);
      var i :| 0 <= i < |legs| && legs[i] == leg;
      assert ms[i].live;
    }
    if SomeUnpriceable(m, legs) {
      var leg :| leg in legs && Unpriceable(m, leg);
      var i :| 0 <= i < |legs| && legs[i] == leg;
      assert ms[i].Unpriceable();
    }
  }

  /**
   The verdict, said without the loop: an early return never changes it. Gains count for
   nothing in the equity, losses and fee debt in full.
   */
  lemma FlaggedExactly(m: Market, risk: RiskParams, pf: Portfolio)
    ensures Equity(pf) == pf.capital - (if pf.pnl < 0 then -pf.pnl else 0)
                          - (if pf.feeCredits < 0 then -pf.feeCredits else 0)
    ensures Verdict(m, risk, pf).liquidatable <==>
            && SomeLive(pf.legs)
            && (|| SomeUnpriceable(m, pf.legs)
                || Equity(pf) <= 0
                || Equity(pf) < TotalMaintenance(m, risk, pf.legs))
    ensures Verdict(m, risk, pf).notionalComplete <==> !SomeUnpriceable(m, pf.legs)
    ensures !SomeUnpriceable(m, pf.legs) && SomeLive(pf.legs) ==>
              && Verdict(m, risk, pf).aggregateNotional == TotalNotional(m, pf.legs)
              && Verdict(m, risk, pf).deficit == Max(0, TotalMaintenance(m, risk, pf.legs) - Equity(pf))
    ensures Verdict(m, risk, pf).assetIndex < 0 <==> !SomeLive(pf.legs)
  {
    SearchesAgree(m, risk, pf.legs);
    SumsAreTotals(m, risk, pf.legs);
    if SomeUnpriceable(m, pf.legs) {
      var leg :| leg in pf.legs && Unpriceable(m, leg);
      assert Live(leg);
    }
  }

  lemma {:induction false} TakeOut(m: Market, risk: RiskParams, legs: seq<Leg>, k: nat)
    requires k < |legs|
    ensures TotalNotional(m, legs) == LegNotional(m, legs[k]) + TotalNotional(m, legs[..k] + legs[k + 1..])
    ensures TotalMaintenance(m, risk, legs) ==
            LegMaintenance(m, risk, legs[k]) + TotalMaintenance(m, risk, legs[..k] + legs[k + 1..])
  {
    var rest := legs[..k] + legs[k + 1..];
    if k == 0 {
      assert rest == legs[1..];
    } else {
      assert rest[1..] == legs[1..][..k - 1] + legs[1..][k..];
      TakeOut(m, risk, legs[1..], k - 1);
    }
  }

  lemma Without(legs: seq<Leg>, k: nat)
    requires k < |legs|
    ensures multiset(legs[..k] + legs[k + 1..]) == multiset(legs) - multiset{legs[k]}
  {
    assert legs == legs[..k] + [legs[k]] + legs[k + 1..];
  }

  lemma IndexOf(b: seq<Leg>, leg: Leg) returns (k: nat)
    requires leg in multiset(b)
    ensures k < |b| && b[k] == leg
  {
    k :| 0 <= k < |b| && b[k] == leg;
  }

  lemma SameWithout(a: seq<Leg>, b: seq<Leg>, k: nat)
    requires multiset(a) == multiset(b) && a != [] && k < |b| && b[k] == a[0]
    ensures multiset(a[1..]) == multiset(b[..k] + b[k + 1..])
  {
    Without(a, 0);
    Without(b, k);
    assert a[..0] + a[0 + 1..] == a[1..];
  }

  lemma HeadIn(a: seq<Leg>, b: seq<Leg>) returns (k: nat)
    requires multiset(a) == multiset(b) && a != []
    ensures k < |b| && b[k] == a[0] && multiset(a[1..]) == multiset(b[..k] + b[k + 1..])
  {
    assert a[0] in multiset(a);
    k := IndexOf(b, a[0]);
    SameWithout(a, b, k);
  }

  lemma {:induction false} TotalsForgetOrder(m: Market, risk: RiskParams, a: seq<Leg>, b: seq<Leg>)
    requires multiset(a) == multiset(b)
    ensures TotalNotional(m, a) == TotalNotional(m, b)
    ensures TotalMaintenance(m, risk, a) == TotalMaintenance(m, risk, b)
    decreases |a|
  {
    if a == [] {
      assert |multiset(b)| == 0;
    } else {
      var k := HeadIn(a, b);
      TakeOut(m, risk, b, k);
      TotalsForgetOrder(m, risk, a[1..], b[..k] + b[k + 1..]);
    }
  }

  /** Reordering the legs changes neither the verdict nor, when it is complete, the amounts. */
  lemma OrderOfLegsIsIrrelevant(m: Market, risk: RiskParams, pf: Portfolio, legs: seq<Leg>)
    requires multiset(legs) == multiset(pf.legs)
    ensures var one, other := Verdict(m, risk, pf), Verdict(m, risk, pf.(legs := legs));
            && one.liquidatable == other.liquidatable
            && one.notionalComplete == other.notionalComplete
            && (one.notionalComplete ==>
                  one.aggregateNotional == other.aggregateNotional && one.deficit == other.deficit)
  {
    TotalsForgetOrder(m, risk, pf.legs, legs);
    SameMembers(pf.legs, legs);
    FlaggedExactly(m, risk, pf);
    FlaggedExactly(m, risk, pf.(legs := legs));
    assert SomeLive(legs) <==> SomeLive(pf.legs);
    assert SomeUnpriceable(m, legs) <==> SomeUnpriceable(m, pf.legs);
  }

  lemma SameMembers(a: seq<Leg>, b: seq<Leg>)
    requires multiset(a) == multiset(b)
    ensures forall leg :: leg in a <==> leg in b
  {
    forall leg ensures leg in a <==> leg in b {
      assert leg in a <==> leg in multiset(a);
      assert leg in b <==> leg in multiset(b);
    }
  }

  // ---------- against the engine ----------

  /** The engine credits a gain only as far as it is realizable. */
  function EngineEquity(pf: Portfolio, realizable: nat): int {
    pf.capital + (if pf.pnl < 0 then pf.pnl else realizable) + Min(pf.feeCredits, 0)
  }

  ghost predicate EngineFlags(m: Market, risk: RiskParams, pf: Portfolio, realizable: nat) {
    SomeLive(pf.legs) &&
    (EngineEquity(pf, realizable) <= 0 || EngineEquity(pf, realizable) < TotalMaintenance(m, risk, pf.legs))
  }

  /**
   Whatever part of a gain the engine realizes, what it would flag on the same
   maintenance is flagged here; of the priceable portfolios, those flagged here
   only are the ones whose requirement lies between the two equities.
   */
  lemma NoHaircutEscapes(m: Market, risk: RiskParams, pf: Portfolio, realizable: nat)
    requires pf.pnl >= 0 ==> realizable <= pf.pnl
    ensures EngineFlags(m, risk, pf, realizable) ==> Verdict(m, risk, pf).liquidatable
    ensures !SomeUnpriceable(m, pf.legs) ==>
              (Verdict(m, risk, pf).liquidatable && !EngineFlags(m, risk, pf, realizable) <==>
               && SomeLive(pf.legs)
               && Equity(pf) < Max(1, TotalMaintenance(m, risk, pf.legs)) <= EngineEquity(pf, realizable))
  {
    FlaggedExactly(m, risk, pf);
  }

  function TotalLag(m: Market, legs: seq<Leg>): nat {
    if legs == [] then 0
    else (if LegNotional(m, legs[0]) == 0 then 0 else LegLag(m, legs[0])) + TotalLag(m, legs[1..])
  }

  lemma {:induction false} LagAdds(m: Market, blind: Market, risk: RiskParams, legs: seq<Leg>)
    requires forall leg :: leg in legs ==> LegPrice(blind, leg) == LegPrice(m, leg) && RawTarget(blind, leg) == 0
    ensures TotalMaintenance(m, risk, legs) == TotalMaintenance(blind, risk, legs) + TotalLag(m, legs)
  {
    if legs != [] {
      assert legs[0] in legs;
      LagAdds(m, blind, risk, legs[1..]);
      assert LegNotional(m, legs[0]) == LegNotional(blind, legs[0]);
      assert LegLag(blind, legs[0]) == 0;
    }
  }

  /**
   An unread oracle target drops the lag penalty. That never flags a portfolio the
   full reading would not, and it hides exactly those whose equity covers the base
   requirement but not the penalty on top of it.
   */
  lemma UnreadTargetHides(m: Market, blind: Market, risk: RiskParams, pf: Portfolio)
    requires forall leg :: leg in pf.legs ==> LegPrice(blind, leg) == LegPrice(m, leg) && RawTarget(blind, leg) == 0
    ensures Verdict(blind, risk, pf).liquidatable ==> Verdict(m, risk, pf).liquidatable
    ensures Verdict(m, risk, pf).liquidatable && !Verdict(blind, risk, pf).liquidatable <==>
            var base := TotalMaintenance(blind, risk, pf.legs);
            && SomeLive(pf.legs) && !SomeUnpriceable(m, pf.legs) && Equity(pf) > 0
            && base <= Equity(pf) < base + TotalLag(m, pf.legs)
  {
    LagAdds(m, blind, risk, pf.legs);
    FlaggedExactly(m, risk, pf);
    FlaggedExactly(blind, risk, pf);
    assert SomeUnpriceable(m, pf.legs) <==> SomeUnpriceable(blind, pf.legs) by {
      forall leg | leg in pf.legs ensures Unpriceable(m, leg) <==> Unpriceable(blind, leg) {
      }
    }
  }

  /** Every asset slot the account holds has readable prices. */
  lemma HeldSlotsAreReadable(m: Market, assetIndex: nat, off: nat)
    requires Matches(m.sdk) && off + 8 <= ENGINE_ASSET_SLOT_DERIVED_LEN
    requires m.sdk.AssetSlotsBase() + (assetIndex + 1) * 1797 <= |m.data|
    ensures InBounds(m.data, m.sdk.EngineAssetSlot(assetIndex) + off, 8)
    ensures SlotField(m, assetIndex, off) == Field(m.data, m.sdk.EngineAssetSlot(assetIndex) + off, 8)
  {
  }

  /** An account that stores these two prices for one asset and zeros everywhere else. */
  function AccountWith(sdk: Sdk, assetIndex: nat, target: nat, price: nat): (data: seq<byte>)
    requires Matches(sdk)
    ensures |data| == sdk.AssetSlotsBase() + (assetIndex + 1) * 1797
  {
    var at := sdk.EngineAssetSlot(assetIndex) + ASSET_RAW_ORACLE_TARGET_PRICE_OFF;
    var end := sdk.AssetSlotsBase() + (assetIndex + 1) * 1797;
    Zeros(at) + Bytes(target, 8) + Bytes(price, 8) + Zeros(end - at - 16)
  }

  function Zeros(n: nat): (data: seq<byte>)
    ensures |data| == n
  {
    seq(n, _ => 0)
  }

  lemma StoredPricesRead(m: Market, assetIndex: nat, target: nat, price: nat)
    requires Matches(m.sdk) && m.data == AccountWith(m.sdk, assetIndex, target, price)
    requires target < Power256(8) && price < Power256(8)
    ensures SlotField(m, assetIndex, ASSET_RAW_ORACLE_TARGET_PRICE_OFF) == target
    ensures SlotField(m, assetIndex, ASSET_EFFECTIVE_PRICE_OFF) == price
  {
    var at := m.sdk.EngineAssetSlot(assetIndex) + ASSET_RAW_ORACLE_TARGET_PRICE_OFF;
    HeldSlotsAreReadable(m, assetIndex, ASSET_RAW_ORACLE_TARGET_PRICE_OFF);
    HeldSlotsAreReadable(m, assetIndex, ASSET_EFFECTIVE_PRICE_OFF);
    assert m.data[at..at + 8] == Bytes(target, 8);
    assert m.data[at + 8..at + 16] == Bytes(price, 8);
    LeOfBytes(target, 8);
    LeOfBytes(price, 8);
  }

  /**
   Portfolios are hidden: whenever a stored target below the price is read as the 0 of an
   unset one, the long portfolio whose equity just covers the base requirement is flagged
   with the target and passes without it.
   */
  lemma UnsetTargetDoesHide(sdk: Sdk, assetIndex: nat, target: nat, price: nat, size: nat, risk: RiskParams,
                            fallback: int)
    returns (m: Market, blind: Market, pf: Portfolio)
    requires Matches(sdk) && 0 < target < price < Power256(8) && size > 0 && risk.minNonzeroMmReq > 0
    ensures m == Market(sdk, AccountWith(sdk, assetIndex, target, price), fallback)
    ensures blind == Market(sdk, AccountWith(sdk, assetIndex, 0, price), fallback)
    ensures pf.legs == [Leg(true, assetIndex, size)]
    ensures forall leg :: leg in pf.legs ==> LegPrice(blind, leg) == LegPrice(m, leg) && RawTarget(blind, leg) == 0
    ensures Verdict(m, risk, pf).liquidatable && !Verdict(blind, risk, pf).liquidatable
  {
    m := Market(sdk, AccountWith(sdk, assetIndex, target, price), fallback);
    blind := Market(sdk, AccountWith(sdk, assetIndex, 0, price), fallback);
    StoredPricesRead(m, assetIndex, target, price);
    StoredPricesRead(blind, assetIndex, 0, price);
    var leg := Leg(true, assetIndex, size);
    pf := Portfolio(TotalMaintenance(blind, risk, [leg]), 0, 0, [leg]);
    assert leg in pf.legs && Live(leg);
    OneLegTotals(m, blind, risk, leg);
    UnreadTargetHides(m, blind, risk, pf);
  }

  lemma OneLegTotals(m: Market, blind: Market, risk: RiskParams, leg: Leg)
    requires Live(leg) && leg.basisPosQ > 0 && risk.minNonzeroMmReq > 0
    requires LegPrice(blind, leg) == LegPrice(m, leg) > 0 && 0 < RawTarget(m, leg) < LegPrice(m, leg)
    ensures TotalMaintenance(blind, risk, [leg]) > 0 && TotalLag(m, [leg]) > 0
    ensures !SomeUnpriceable(m, [leg])
  {
    assert [leg][1..] == [];
  }

  // ---------- the dust floor ----------

  function IsBelowLiquidationDustFloor(aggregateNotional: int, notionalComplete: bool, floor: int): bool {
    if floor <= 0 then false
    else if !notionalComplete then false
    else if aggregateNotional <= 0 then false
    else aggregateNotional < floor
  }

  predicate DustSkipped(h: Health, floor: int) {
    IsBelowLiquidationDustFloor(h.aggregateNotional, h.notionalComplete, floor)
  }

  lemma {:induction false} LegWithinTotal(m: Market, legs: seq<Leg>, leg: Leg)
    requires leg in legs
    ensures LegNotional(m, leg) <= TotalNotional(m, legs)
  {
    if leg != legs[0] { LegWithinTotal(m, legs[1..], leg); }
  }

  /**
   The dust floor skips a portfolio exactly when every live leg has a price and
   they are together below the floor: a large leg is never hidden, whatever its slot.
   */
  lemma DustIsTheWholePortfolio(m: Market, risk: RiskParams, pf: Portfolio, floor: int)
    ensures DustSkipped(Verdict(m, risk, pf), floor) <==>
            !SomeUnpriceable(m, pf.legs) && SomeLive(pf.legs) && TotalNotional(m, pf.legs) < floor
    ensures DustSkipped(Verdict(m, risk, pf), floor) ==>
              forall leg :: leg in pf.legs ==> LegNotional(m, leg) < floor
  {
    FlaggedExactly(m, risk, pf);
    forall leg | leg in pf.legs ensures LegNotional(m, leg) <= TotalNotional(m, pf.legs) {
      LegWithinTotal(m, pf.legs, leg);
    }
    SearchesAgree(m, risk, pf.legs);
    if SomeLive(pf.legs) && !SomeUnpriceable(m, pf.legs) {
      var leg :| leg in pf.legs && Live(leg);
      assert LegNotional(m, leg) > 0;
    }
  }
}
