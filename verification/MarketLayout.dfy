/** Where things live in a v17 market account. SDK constants are parameters. */
module MarketLayout {

  const V17_EXPECTED_WRAPPER_CONFIG_LEN := 576
  const MG_CONFIG_OFF := 32
  const V16_CFG_MAX_MARKET_SLOTS_OFF := 2
  const V16_CFG_LEN := 249
  const MG_ASSET_SLOT_CAPACITY_OFF := MG_CONFIG_OFF + V16_CFG_LEN
  const MG_VAULT_OFF := MG_ASSET_SLOT_CAPACITY_OFF + 4
  const MG_INSURANCE_OFF := MG_VAULT_OFF + 16
  const MG_C_TOT_OFF := MG_INSURANCE_OFF + 16
  const MG_SOURCE_INSURANCE_CREDIT_RESERVED_ATOMS_OFF := 445
  const MG_INSURANCE_DOMAIN_BUDGET_REMAINING_TOTAL_OFF := 461
  const MG_CURRENT_SLOT_OFF := 613
  const MG_MODE_OFF := 626
  const MG_RESOLVED_PAYOUT_LEDGER_OFF := 668
  const MG_RESOLVED_PAYOUT_LEDGER_LEN := 90
  const MG_DERIVED_LEN := MG_RESOLVED_PAYOUT_LEDGER_OFF + MG_RESOLVED_PAYOUT_LEDGER_LEN

  const ASSET_SLOT_WRAPPER_PREFIX_LEN := 512
  const ASSET_RAW_ORACLE_TARGET_PRICE_OFF := 17
  const ASSET_EFFECTIVE_PRICE_OFF := 25
  const SOURCE_CREDIT_LEN := 184
  const SLOT_SOURCE_CREDIT_LONG_OFF := 579
  const SLOT_SOURCE_CREDIT_SHORT_OFF := SLOT_SOURCE_CREDIT_LONG_OFF + SOURCE_CREDIT_LEN
  const BACKING_BUCKET_LEN := 97
  const SLOT_BACKING_LONG_OFF := SLOT_SOURCE_CREDIT_SHORT_OFF + SOURCE_CREDIT_LEN
  const SLOT_BACKING_SHORT_OFF := SLOT_BACKING_LONG_OFF + BACKING_BUCKET_LEN
  const INSURANCE_RESERVATION_LEN := 72
  const SLOT_INSURANCE_RESERVATION_LONG_OFF := SLOT_BACKING_SHORT_OFF + BACKING_BUCKET_LEN
  const SLOT_INSURANCE_RESERVATION_SHORT_OFF := SLOT_INSURANCE_RESERVATION_LONG_OFF + INSURANCE_RESERVATION_LEN
  const ENGINE_ASSET_SLOT_DERIVED_LEN := SLOT_INSURANCE_RESERVATION_SHORT_OFF + INSURANCE_RESERVATION_LEN
  const ASSET_SLOT_DERIVED_STRIDE := ASSET_SLOT_WRAPPER_PREFIX_LEN + ENGINE_ASSET_SLOT_DERIVED_LEN

  const BUCKET_FRESH_UNLIENED_OFF := 8
  const BUCKET_VALID_LIENED_OFF := 24
  const BUCKET_IMPAIRED_LIENED_OFF := 56
  const BUCKET_EXPIRY_SLOT_OFF := 88
  const BUCKET_STATUS_OFF := 96
  const BUCKET_STATUS_FRESH := 1

  /** The lengths and offsets the SDK exports. */
  datatype Sdk = Sdk(
    headerLen: nat, wrapperConfigLen: nat, marketGroupOff: nat, marketGroupLen: nat, marketAssetSlotLen: nat)
  {
    function AssetSlotsBase(): nat {
      marketGroupOff + marketGroupLen
    }

    function MarketGroupField(relativeOff: nat): nat {
      marketGroupOff + relativeOff
    }

    function EngineConfigField(relativeOff: nat): nat {
      marketGroupOff + MG_CONFIG_OFF + relativeOff
    }

    function EngineAssetSlot(assetIndex: nat): nat {
      AssetSlotsBase() + assetIndex * marketAssetSlotLen + ASSET_SLOT_WRAPPER_PREFIX_LEN
    }

    function BackingBucket(domain: nat): nat {
      EngineAssetSlot(domain / 2) + if domain % 2 == 0 then SLOT_BACKING_LONG_OFF else SLOT_BACKING_SHORT_OFF
    }
  }

  /** What the boot assertion demands of the SDK. */
  predicate Matches(sdk: Sdk) {
    && sdk.wrapperConfigLen == 576
    && sdk.marketGroupLen == 758
    && sdk.marketAssetSlotLen == 1797
    && sdk.marketGroupOff == sdk.headerLen + sdk.wrapperConfigLen
  }

  datatype Problem = WrongGeneration | HeaderLength | SlotStride | SdkDisagrees

  /** The boot tripwire: it throws exactly when some problem was collected. */
  method AssertV17LayoutGeneration(sdk: Sdk) returns (problems: seq<Problem>)
    ensures problems == [] <==> Matches(sdk)
    ensures WrongGeneration in problems <==> sdk.wrapperConfigLen != 576
    ensures HeaderLength in problems <==> sdk.marketGroupLen != 758
    ensures SlotStride in problems <==> sdk.marketAssetSlotLen != 1797
  {
    problems := [];
    if sdk.wrapperConfigLen != V17_EXPECTED_WRAPPER_CONFIG_LEN {
      problems := problems + [WrongGeneration];
    }
    if MG_DERIVED_LEN != sdk.marketGroupLen {
      problems := problems + [HeaderLength];
    }
    if ASSET_SLOT_DERIVED_STRIDE != sdk.marketAssetSlotLen {
      problems := problems + [SlotStride];
    }
    if sdk.marketGroupOff != sdk.headerLen + sdk.wrapperConfigLen {
      problems := problems + [SdkDisagrees];
    }
  }

  /** Buckets of different domains occupy disjoint byte ranges, each inside its asset's slot. */
  lemma BucketsDisjoint(sdk: Sdk, d: nat, e: nat)
    requires Matches(sdk) && d < e
    ensures sdk.BackingBucket(d) + BACKING_BUCKET_LEN <= sdk.BackingBucket(e)
  {
    var a, b := d / 2, e / 2;
    assert d == 2 * a + d % 2 && e == 2 * b + e % 2;
  }

  lemma BucketInSlot(sdk: Sdk, d: nat, slots: nat)
    requires Matches(sdk) && d < 2 * slots
    ensures sdk.AssetSlotsBase() + (d / 2) * 1797 <= sdk.BackingBucket(d)
    ensures sdk.BackingBucket(d) + BACKING_BUCKET_LEN <= sdk.AssetSlotsBase() + slots * 1797
  {
    assert d / 2 <= slots - 1;
  }
}
