/** Decoding the backing buckets of a market account, and which of them can be expired. */
module BackingBuckets {
  import opened Prelude
  import opened MarketBytes
  import opened MarketLayout

  datatype Side = Long | Short

  datatype Bucket = Bucket(
    domain: nat, assetIndex: nat, side: Side, status: nat, expirySlot: nat,
    freshUnliened: nat, validLiened: nat, impairedLiened: nat)

  datatype Group = Group(
    mode: nat, currentSlot: nat, insurance: nat, sourceInsuranceReserved: nat,
    insuranceDomainBudgetRemaining: nat, maxMarketSlots: nat, assetSlotCount: nat)

  /** `readMarketGroupState`: None where the source throws. */
  function ReadMarketGroup(sdk: Sdk, data: seq<byte>): Option<Group>
    requires Matches(sdk)
  {
    if |data| < sdk.AssetSlotsBase() then None
    else
      Some(Group(
        Field(data, sdk.MarketGroupField(MG_MODE_OFF), 1),
        Field(data, sdk.MarketGroupField(MG_CURRENT_SLOT_OFF), 8),
        Field(data, sdk.MarketGroupField(MG_INSURANCE_OFF), 16),
        Field(data, sdk.MarketGroupField(MG_SOURCE_INSURANCE_CREDIT_RESERVED_ATOMS_OFF), 16),
        Field(data, sdk.MarketGroupField(MG_INSURANCE_DOMAIN_BUDGET_REMAINING_TOTAL_OFF), 16),
        Field(data, sdk.EngineConfigField(V16_CFG_MAX_MARKET_SLOTS_OFF), 4),
        (|data| - sdk.AssetSlotsBase()) / sdk.marketAssetSlotLen))
  }

  predicate Fits(sdk: Sdk, data: seq<byte>, domain: nat) {
    sdk.BackingBucket(domain) + BACKING_BUCKET_LEN <= |data|
  }

  /** The bucket of one domain, field by field. */
  function BucketAt(sdk: Sdk, data: seq<byte>, domain: nat): Bucket
    requires Fits(sdk, data, domain)
  {
    var base := sdk.BackingBucket(domain);
    Bucket(domain, domain / 2, if domain % 2 == 0 then Long else Short,
           Field(data, base + BUCKET_STATUS_OFF, 1),
           Field(data, base + BUCKET_EXPIRY_SLOT_OFF, 8),
           Field(data, base + BUCKET_FRESH_UNLIENED_OFF, 16),
           Field(data, base + BUCKET_VALID_LIENED_OFF, 16),
           Field(data, base + BUCKET_IMPAIRED_LIENED_OFF, 16))
  }

  /** Every domain the account both is configured for and physically holds fits in its bytes. */
  lemma CountedDomainsFit(sdk: Sdk, data: seq<byte>, group: Group, domain: nat)
    requires Matches(sdk) && ReadMarketGroup(sdk, data) == Some(group)
    requires domain < 2 * Min(group.maxMarketSlots, group.assetSlotCount)
    ensures Fits(sdk, data, domain)
  {
    BucketInSlot(sdk, domain, group.assetSlotCount);
    var room := |data| - sdk.AssetSlotsBase();
    assert group.assetSlotCount * 1797 <= room;
  }

  /** The buckets are those of the first domains, in order. */
  ghost predicate ReadInOrder(sdk: Sdk, data: seq<byte>, buckets: seq<Bucket>) {
    forall d :: 0 <= d < |buckets| ==> Fits(sdk, data, d) && buckets[d] == BucketAt(sdk, data, d)
  }

  lemma OneMoreRead(sdk: Sdk, data: seq<byte>, buckets: seq<Bucket>, domain: nat)
    requires ReadInOrder(sdk, data, buckets) && domain == |buckets| && Fits(sdk, data, domain)
    ensures ReadInOrder(sdk, data, buckets + [BucketAt(sdk, data, domain)])
  {
  }

  /**
   Decoding is total and exact: for every account long enough to be read at all,
   two buckets per counted asset slot, in domain order, each read from its own
   bytes; the skip is never taken.
   */
  method ReadBackingBuckets(sdk: Sdk, data: seq<byte>, group: Group) returns (buckets: seq<Bucket>)
    requires Matches(sdk) && ReadMarketGroup(sdk, data) == Some(group)
    ensures |buckets| == 2 * Min(group.maxMarketSlots, group.assetSlotCount)
    ensures forall d :: 0 <= d < |buckets| ==>
              Fits(sdk, data, d) && buckets[d] == BucketAt(sdk, data, d) && buckets[d].domain == d
  {
    var assetCount := Min(group.maxMarketSlots, group.assetSlotCount);
    forall d | 0 <= d < 2 * assetCount ensures Fits(sdk, data, d) {
      CountedDomainsFit(sdk, data, group, d);
    }
    buckets := [];
    for assetIndex := 0 to assetCount
      invariant |buckets| == 2 * assetIndex
      invariant ReadInOrder(sdk, data, buckets)
    {
      for side := 0 to 2
        invariant |buckets| == 2 * assetIndex + side
        invariant ReadInOrder(sdk, data, buckets)
      {
        var domain := assetIndex * 2 + side;
        if sdk.BackingBucket(domain) + BACKING_BUCKET_LEN <= |data| {
          OneMoreRead(sdk, data, buckets, domain);
          buckets := buckets + [BucketAt(sdk, data, domain)];
        }
      }
    }
  }

  /** A bucket depends on its own bytes only: whatever else changes, it decodes the same. */
  lemma OtherBytesDoNotMatter(sdk: Sdk, one: seq<byte>, other: seq<byte>, domain: nat)
    requires Fits(sdk, one, domain) && |other| == |one|
    requires var b := sdk.BackingBucket(domain); one[b..b + BACKING_BUCKET_LEN] == other[b..b + BACKING_BUCKET_LEN]
    ensures BucketAt(sdk, one, domain) == BucketAt(sdk, other, domain)
  {
    var b := sdk.BackingBucket(domain);
    SameField(one, other, b, BUCKET_STATUS_OFF, 1);
    SameField(one, other, b, BUCKET_EXPIRY_SLOT_OFF, 8);
    SameField(one, other, b, BUCKET_FRESH_UNLIENED_OFF, 16);
    SameField(one, other, b, BUCKET_VALID_LIENED_OFF, 16);
    SameField(one, other, b, BUCKET_IMPAIRED_LIENED_OFF, 16);
  }

  lemma SameField(one: seq<byte>, other: seq<byte>, b: nat, o: nat, n: nat)
    requires b + BACKING_BUCKET_LEN <= |one| == |other| && o + n <= BACKING_BUCKET_LEN
    requires one[b..b + BACKING_BUCKET_LEN] == other[b..b + BACKING_BUCKET_LEN]
    ensures Field(one, b + o, n) == Field(other, b + o, n)
  {
    var x, y := one[b + o..b + o + n], other[b + o..b + o + n];
    forall i | 0 <= i < n ensures x[i] == y[i] {
      assert one[b..b + BACKING_BUCKET_LEN][o + i] == other[b..b + BACKING_BUCKET_LEN][o + i];
    }
    assert x == y;
  }

  /** Overwriting the bytes of one bucket leaves every other bucket as it was. */
  lemma OverwriteIsLocal(sdk: Sdk, data: seq<byte>, domain: nat, bytes: seq<byte>, other: nat)
    requires Matches(sdk) && Fits(sdk, data, domain) && Fits(sdk, data, other) && other != domain
    requires |bytes| == BACKING_BUCKET_LEN
    ensures var b := sdk.BackingBucket(domain);
            var written := data[..b] + bytes + data[b + BACKING_BUCKET_LEN..];
            |written| == |data| && BucketAt(sdk, written, other) == BucketAt(sdk, data, other)
  {
    var b, o := sdk.BackingBucket(domain), sdk.BackingBucket(other);
    var written := data[..b] + bytes + data[b + BACKING_BUCKET_LEN..];
    if other < domain { BucketsDisjoint(sdk, other, domain); } else { BucketsDisjoint(sdk, domain, other); }
    assert written[o..o + BACKING_BUCKET_LEN] == data[o..o + BACKING_BUCKET_LEN];
    OtherBytesDoNotMatter(sdk, data, written, other);
  }

  lemma FieldElsewhere(data: seq<byte>, at: nat, bytes: seq<byte>, off: nat, n: nat)
    requires at + |bytes| <= |data| && off + n <= |data|
    requires off + n <= at || at + |bytes| <= off
    ensures Field(data[..at] + bytes + data[at + |bytes|..], off, n) == Field(data, off, n)
  {
    var written := data[..at] + bytes + data[at + |bytes|..];
    assert written[off..off + n] == data[off..off + n];
  }

  /** Storing an expiry slot in one bucket's bytes changes that bucket's expiry and nothing else. */
  lemma ExpiryRoundTrip(sdk: Sdk, data: seq<byte>, domain: nat, expiry: nat)
    requires Matches(sdk) && Fits(sdk, data, domain) && expiry < Power256(8)
    ensures var at := sdk.BackingBucket(domain) + BUCKET_EXPIRY_SLOT_OFF;
            var written := data[..at] + Bytes(expiry, 8) + data[at + 8..];
            |written| == |data| && BucketAt(sdk, written, domain) == BucketAt(sdk, data, domain).(expirySlot := expiry)
  {
    var b := sdk.BackingBucket(domain);
    var at := b + BUCKET_EXPIRY_SLOT_OFF;
    WriteRead(data, at, 8, expiry);
    FieldElsewhere(data, at, Bytes(expiry, 8), b + BUCKET_STATUS_OFF, 1);
    FieldElsewhere(data, at, Bytes(expiry, 8), b + BUCKET_FRESH_UNLIENED_OFF, 16);
    FieldElsewhere(data, at, Bytes(expiry, 8), b + BUCKET_VALID_LIENED_OFF, 16);
    FieldElsewhere(data, at, Bytes(expiry, 8), b + BUCKET_IMPAIRED_LIENED_OFF, 16);
    OnlyExpiry(sdk, data, data[..at] + Bytes(expiry, 8) + data[at + 8..], domain, b, expiry);
  }

  lemma OnlyExpiry(sdk: Sdk, data: seq<byte>, written: seq<byte>, domain: nat, b: nat, expiry: nat)
    requires Fits(sdk, data, domain) && |written| == |data| && b == sdk.BackingBucket(domain)
    requires Field(written, b + BUCKET_EXPIRY_SLOT_OFF, 8) == expiry
    requires Field(written, b + BUCKET_STATUS_OFF, 1) == Field(data, b + BUCKET_STATUS_OFF, 1)
    requires Field(written, b + BUCKET_FRESH_UNLIENED_OFF, 16) == Field(data, b + BUCKET_FRESH_UNLIENED_OFF, 16)
    requires Field(written, b + BUCKET_VALID_LIENED_OFF, 16) == Field(data, b + BUCKET_VALID_LIENED_OFF, 16)
    requires Field(written, b + BUCKET_IMPAIRED_LIENED_OFF, 16) == Field(data, b + BUCKET_IMPAIRED_LIENED_OFF, 16)
    ensures BucketAt(sdk, written, domain) == BucketAt(sdk, data, domain).(expirySlot := expiry)
  {
  }

  /** A bucket that an account can hold. */
  predicate Storable(b: Bucket) {
    && b.assetIndex == b.domain / 2 && b.side == (if b.domain % 2 == 0 then Long else Short)
    && b.status < Power256(1) && b.expirySlot < Power256(8)
    && b.freshUnliened < Power256(16) && b.validLiened < Power256(16) && b.impairedLiened < Power256(16)
  }

  /** The bytes of a bucket, field by field; the gaps are fields the keeper does not read. */
  function Encoded(b: Bucket, head: seq<byte>, mid: seq<byte>, late: seq<byte>): seq<byte>
    requires Storable(b)
  {
    head + Bytes(b.freshUnliened, 16) + Bytes(b.validLiened, 16) + mid + Bytes(b.impairedLiened, 16) + late
    + Bytes(b.expirySlot, 8) + Bytes(b.status, 1)
  }

  predicate Gaps(head: seq<byte>, mid: seq<byte>, late: seq<byte>) {
    |head| == 8 && |mid| == 16 && |late| == 16
  }

  lemma EncodedFields(b: Bucket, head: seq<byte>, mid: seq<byte>, late: seq<byte>, bytes: seq<byte>)
    requires Storable(b) && Gaps(head, mid, late) && bytes == Encoded(b, head, mid, late)
    ensures |bytes| == 97
    ensures bytes[8..24] == Bytes(b.freshUnliened, 16) && bytes[24..40] == Bytes(b.validLiened, 16)
    ensures bytes[56..72] == Bytes(b.impairedLiened, 16)
    ensures bytes[88..96] == Bytes(b.expirySlot, 8) && bytes[96..97] == Bytes(b.status, 1)
  {
  }

  /** Where the bucket of a domain lies in the account: two to an asset slot, the long one first. */
  function AddressOf(sdk: Sdk, domain: nat): nat {
    sdk.marketGroupOff + 758 + domain / 2 * 1797 + 512 + if domain % 2 == 0 then 947 else 1044
  }

  lemma StoredField(data: seq<byte>, at: nat, bytes: seq<byte>, off: nat, n: nat, v: nat)
    requires at + |bytes| <= |data| && data[at..at + |bytes|] == bytes && off + n <= |bytes|
    requires bytes[off..off + n] == Bytes(v, n) && v < Power256(n)
    ensures Field(data, at + off, n) == v
  {
    var x, y := data[at + off..at + off + n], bytes[off..off + n];
    forall i | 0 <= i < n ensures x[i] == y[i] {
      assert data[at..at + |bytes|][off + i] == bytes[off + i];
    }
    assert x == y;
    LeOfBytes(v, n);
  }

  /** Round trip: a bucket laid down at its address is read back as it was, whatever lies around it. */
  lemma BucketRoundTrip(sdk: Sdk, data: seq<byte>, b: Bucket, head: seq<byte>, mid: seq<byte>, late: seq<byte>)
    requires Matches(sdk) && Storable(b) && Gaps(head, mid, late) && AddressOf(sdk, b.domain) + 97 <= |data|
    requires data[AddressOf(sdk, b.domain)..AddressOf(sdk, b.domain) + 97] == Encoded(b, head, mid, late)
    ensures Fits(sdk, data, b.domain) && BucketAt(sdk, data, b.domain) == b
  {
    var at, bytes := AddressOf(sdk, b.domain), Encoded(b, head, mid, late);
    EncodedFields(b, head, mid, late, bytes);
    NarrowFields(data, b, at, bytes);
    WideFields(data, b, at, bytes);
    Decoded(sdk, data, b, at);
  }

  lemma NarrowFields(data: seq<byte>, b: Bucket, at: nat, bytes: seq<byte>)
    requires Storable(b) && |bytes| == 97 && at + 97 <= |data| && data[at..at + 97] == bytes
    requires bytes[88..96] == Bytes(b.expirySlot, 8) && bytes[96..97] == Bytes(b.status, 1)
    ensures Field(data, at + 96, 1) == b.status && Field(data, at + 88, 8) == b.expirySlot
  {
    StoredField(data, at, bytes, 96, 1, b.status);
    StoredField(data, at, bytes, 88, 8, b.expirySlot);
  }

  lemma WideFields(data: seq<byte>, b: Bucket, at: nat, bytes: seq<byte>)
    requires Storable(b) && |bytes| == 97 && at + 97 <= |data| && data[at..at + 97] == bytes
    requires bytes[8..24] == Bytes(b.freshUnliened, 16) && bytes[24..40] == Bytes(b.validLiened, 16)
    requires bytes[56..72] == Bytes(b.impairedLiened, 16)
    ensures Field(data, at + 8, 16) == b.freshUnliened && Field(data, at + 24, 16) == b.validLiened
    ensures Field(data, at + 56, 16) == b.impairedLiened
  {
    StoredField(data, at, bytes, 8, 16, b.freshUnliened);
    StoredField(data, at, bytes, 24, 16, b.validLiened);
    StoredField(data, at, bytes, 56, 16, b.impairedLiened);
  }

  lemma Decoded(sdk: Sdk, data: seq<byte>, b: Bucket, at: nat)
    requires Matches(sdk) && Storable(b) && at == AddressOf(sdk, b.domain) && at + 97 <= |data|
    requires Field(data, at + 96, 1) == b.status && Field(data, at + 88, 8) == b.expirySlot
    requires Field(data, at + 8, 16) == b.freshUnliened && Field(data, at + 24, 16) == b.validLiened
    requires Field(data, at + 56, 16) == b.impairedLiened
    ensures Fits(sdk, data, b.domain) && BucketAt(sdk, data, b.domain) == b
  {
    assert sdk.BackingBucket(b.domain) == at;
  }

  /** The header fields are those bytes of the market group, and the slots are what the rest of the account holds. */
  lemma GroupBytes(sdk: Sdk, data: seq<byte>, group: Group)
    requires Matches(sdk) && ReadMarketGroup(sdk, data) == Some(group)
    ensures var g := sdk.marketGroupOff;
            && g + 758 <= |data| && group.mode == data[g + 626]
            && group.currentSlot == Le(data[g + 613..g + 621]) && group.insurance == Le(data[g + 301..g + 317])
            && group.sourceInsuranceReserved == Le(data[g + 445..g + 461])
            && group.insuranceDomainBudgetRemaining == Le(data[g + 461..g + 477])
            && group.maxMarketSlots == Le(data[g + 34..g + 38])
            && group.assetSlotCount * 1797 <= |data| - g - 758 < (group.assetSlotCount + 1) * 1797
  {
    var mode := data[sdk.marketGroupOff + 626..sdk.marketGroupOff + 627];
    assert mode == [mode[0]] && Le(mode[1..]) == 0;
  }

  // ---------- which buckets tag 89 would accept ----------

  function NowSlot(chainSlot: nat, engineSlot: nat): nat {
    if chainSlot > engineSlot then chainSlot else engineSlot
  }

  predicate Expirable(b: Bucket, now: nat) {
    b.status == BUCKET_STATUS_FRESH && now >= b.expirySlot
  }

  predicate LapsingSoon(b: Bucket, now: nat, horizon: nat) {
    b.status == BUCKET_STATUS_FRESH && b.expirySlot > now && b.expirySlot - now <= horizon
  }

  function Filter(p: Bucket -> bool, bs: seq<Bucket>): seq<Bucket> {
    if bs == [] then [] else (if p(bs[0]) then [bs[0]] else []) + Filter(p, bs[1..])
  }

  function FindExpirable(bs: seq<Bucket>, chainSlot: nat, engineSlot: nat): seq<Bucket> {
    var now := NowSlot(chainSlot, engineSlot);
    Filter((b: Bucket) => Expirable(b, now), bs)
  }

  function FindLapsingSoon(bs: seq<Bucket>, chainSlot: nat, engineSlot: nat, horizon: nat): seq<Bucket> {
    var now := NowSlot(chainSlot, engineSlot);
    Filter((b: Bucket) => LapsingSoon(b, now, horizon), bs)
  }

  lemma {:induction false} FilterMember(p: Bucket -> bool, bs: seq<Bucket>, b: Bucket)
    ensures b in Filter(p, bs) <==> b in bs && p(b)
  {
    if bs != [] {
      FilterMember(p, bs[1..], b);
      assert bs == [bs[0]] + bs[1..];
    }
  }

  /**
   Both filters, completely: what may be expired is fresh and due by either slot counter; what
   lapses soon is fresh, due by neither, and due by one of them within the horizon.
   */
  lemma FoundExactly(bs: seq<Bucket>, chainSlot: nat, engineSlot: nat, horizon: nat, b: Bucket)
    ensures b in FindExpirable(bs, chainSlot, engineSlot) <==>
            b in bs && b.status == 1 && (b.expirySlot <= chainSlot || b.expirySlot <= engineSlot)
    ensures b in FindLapsingSoon(bs, chainSlot, engineSlot, horizon) <==>
            && b in bs && b.status == 1 && chainSlot < b.expirySlot && engineSlot < b.expirySlot
            && (b.expirySlot <= chainSlot + horizon || b.expirySlot <= engineSlot + horizon)
  {
    var now := NowSlot(chainSlot, engineSlot);
    FilterMember((x: Bucket) => Expirable(x, now), bs, b);
    FilterMember((x: Bucket) => LapsingSoon(x, now, horizon), bs, b);
  }

  /** A filter keeps the order: filtering a list is filtering its parts. */
  lemma {:induction false} FilterParts(p: Bucket -> bool, one: seq<Bucket>, other: seq<Bucket>)
    ensures Filter(p, one + other) == Filter(p, one) + Filter(p, other)
  {
    if one == [] {
      assert one + other == other;
    } else {
      var head := if p(one[0]) then [one[0]] else [];
      assert (one + other)[1..] == one[1..] + other;
      FilterParts(p, one[1..], other);
      Regroup(head, Filter(p, one[1..]), Filter(p, other));
    }
  }

  lemma Regroup<T>(a: seq<T>, b: seq<T>, c: seq<T>)
    ensures a + (b + c) == (a + b) + c
  {
  }

  /** No bucket is reported both as expirable and as lapsing soon. */
  lemma ExpirableOrLapsingNotBoth(bs: seq<Bucket>, chainSlot: nat, engineSlot: nat, horizon: nat, b: Bucket)
    ensures !(b in FindExpirable(bs, chainSlot, engineSlot) && b in FindLapsingSoon(bs, chainSlot, engineSlot, horizon))
  {
    var now := NowSlot(chainSlot, engineSlot);
    FilterMember((x: Bucket) => Expirable(x, now), bs, b);
    FilterMember((x: Bucket) => LapsingSoon(x, now, horizon), bs, b);
  }

  /** An unchanged expirable bucket stays expirable as either slot counter grows. */
  lemma ExpirableForGood(bs: seq<Bucket>, later: seq<Bucket>, chain: nat, engine: nat, chain': nat, engine': nat,
                         b: Bucket)
    requires chain <= chain' && engine <= engine'
    requires b in FindExpirable(bs, chain, engine) && b in later
    ensures b in FindExpirable(later, chain', engine')
  {
    var now, now' := NowSlot(chain, engine), NowSlot(chain', engine');
    FilterMember((x: Bucket) => Expirable(x, now), bs, b);
    FilterMember((x: Bucket) => Expirable(x, now'), later, b);
  }

  /** A lapsing bucket is expirable once either counter has advanced by the horizon. */
  lemma LapsingBecomesExpirable(bs: seq<Bucket>, chain: nat, engine: nat, horizon: nat, chain': nat, engine': nat,
                                b: Bucket)
    requires b in FindLapsingSoon(bs, chain, engine, horizon)
    requires NowSlot(chain', engine') >= NowSlot(chain, engine) + horizon
    ensures b in FindExpirable(bs, chain', engine')
  {
    var now, now' := NowSlot(chain, engine), NowSlot(chain', engine');
    FilterMember((x: Bucket) => LapsingSoon(x, now, horizon), bs, b);
    FilterMember((x: Bucket) => Expirable(x, now'), bs, b);
  }

  /** The withdrawable pool: two saturating subtractions, never below zero, never double counted. */
  function EngineAvailableAtoms(g: Group): (atoms: nat)
    ensures atoms == Max(0, g.insurance - g.sourceInsuranceReserved - g.insuranceDomainBudgetRemaining)
  {
    var afterReserved :=
      if g.insurance > g.sourceInsuranceReserved then g.insurance - g.sourceInsuranceReserved else 0;
    if afterReserved > g.insuranceDomainBudgetRemaining
    then afterReserved - g.insuranceDomainBudgetRemaining else 0
  }
}
