/** Health of one RPC provider: rolling latencies, slot lag, and hysteresis on recovery. */
module RpcHealth {
  import opened Prelude
  import opened Events
  import opened Ranking

  datatype Config = Config(
    windowMs: int, unhealthyP99Ms: int, unhealthySlotLag: int, unhealthyConsecutiveFails: int,
    recoveryWindowMs: int, recoveryP99Ms: int, recoverySlotLag: int)

  // ---------- percentiles ----------

  function Latencies(samples: seq<Stamped<int>>): seq<Keyed<()>> {
    if samples == [] then [] else [Keyed(samples[0].what, ())] + Latencies(samples[1..])
  }

  /** ceil(pct / 100 * n). */
  function Rank(pct: nat, n: nat): nat {
    (pct * n + 99) / 100
  }

  lemma RankInRange(pct: nat, n: nat)
    requires 0 < pct <= 100 && 0 < n
    ensures 1 <= Rank(pct, n) <= n
  {
    assert pct * n <= 100 * n by {
      assert (100 - pct) * n == 100 * n - pct * n;
      Product(100 - pct, n);
    }
    Product(pct, n);
  }

  /** Nearest rank over the sorted latencies; None for an empty window. */
  function Percentile(samples: seq<Stamped<int>>, pct: nat): Option<int>
    requires 0 < pct <= 100
  {
    var sorted := Sort(Latencies(samples));
    if sorted == [] then None
    else
      RankInRange(pct, |sorted|);
      Some(sorted[Min(Rank(pct, |sorted|) - 1, |sorted| - 1)].key)
  }

  function AtMost(s: seq<Keyed<()>>, v: int): nat {
    if s == [] then 0 else (if s[0].key <= v then 1 else 0) + AtMost(s[1..], v)
  }

  lemma {:induction false} AtMostInsert(x: Keyed<()>, s: seq<Keyed<()>>, v: int)
    ensures AtMost(Insert(x, s), v) == AtMost([x], v) + AtMost(s, v)
    ensures |Insert(x, s)| == |s| + 1
  {
    if s == [] || x.key <= s[0].key {
      assert ([x] + s)[1..] == s;
    } else {
      AtMostInsert(x, s[1..], v);
      assert Insert(x, s)[1..] == Insert(x, s[1..]);
    }
  }

  lemma {:induction false} AtMostSort(s: seq<Keyed<()>>, v: int)
    ensures AtMost(Sort(s), v) == AtMost(s, v) && |Sort(s)| == |s|
  {
    if s != [] {
      AtMostSort(s[1..], v);
      AtMostInsert(s[0], Sort(s[1..]), v);
    }
  }

  /** In an ascending list, how many entries are at most v pins down where v lies. */
  lemma {:induction false} AtMostAscending(s: seq<Keyed<()>>, i: nat, v: int)
    requires Ascending(s) && i < |s|
    ensures s[i].key <= v <==> AtMost(s, v) > i
  {
    if i == 0 {
      if s[0].key > v { NoneAtMost(s, v); }
    } else {
      assert forall a, b :: 0 <= a < b < |s[1..]| ==> s[1..][a] == s[a + 1] && s[1..][b] == s[b + 1];
      AtMostAscending(s[1..], i - 1, v);
      if s[0].key > v { NoneAtMost(s, v); }
    }
  }

  lemma {:induction false} NoneAtMost(s: seq<Keyed<()>>, v: int)
    requires forall k :: 0 <= k < |s| ==> s[k].key > v
    ensures AtMost(s, v) == 0
  {
    if s != [] { NoneAtMost(s[1..], v); }
  }

  /** How many of the samples took no longer than the limit. */
  function WithinLimit(samples: seq<Stamped<int>>, limit: int): nat {
    if samples == [] then 0 else (if samples[0].what <= limit then 1 else 0) + WithinLimit(samples[1..], limit)
  }

  lemma {:induction false} LatencyCount(samples: seq<Stamped<int>>, limit: int)
    ensures |Latencies(samples)| == |samples| && AtMost(Latencies(samples), limit) == WithinLimit(samples, limit)
  {
    if samples != [] {
      LatencyCount(samples[1..], limit);
      assert Latencies(samples)[1..] == Latencies(samples[1..]);
    }
  }

  /** A percentile is below a limit exactly when enough samples are. */
  lemma PercentileCounts(samples: seq<Stamped<int>>, pct: nat, limit: int)
    requires 0 < pct <= 100 && samples != []
    ensures Percentile(samples, pct).Some?
    ensures Percentile(samples, pct).value <= limit <==>
            100 * WithinLimit(samples, limit) >= pct * |samples|
  {
    var latencies := Latencies(samples);
    LatencyCount(samples, limit);
    SortSorts(latencies);
    AtMostSort(latencies, limit);
    RankInRange(pct, |samples|);
    AtMostAscending(Sort(latencies), Rank(pct, |samples|) - 1, limit);
  }

  // ---------- the provider ----------

  /** What one evaluation saw: any threshold breached, and all recovery criteria met. */
  datatype Evaluation = Evaluation(now: int, breach: bool, clean: bool)
  {
    predicate Ok() {
      !breach && clean
    }
  }

  datatype Provider = Provider(
    samples: seq<Stamped<int>>, consecutiveFails: nat, lastSeenSlot: Option<nat>,
    isHealthy: bool, recoveryStartMs: Option<int>)
  {
    function RecordSuccess(c: Config, latencyMs: int, now: int): Provider {
      this.(samples := DropExpired(samples + [Stamped(now, latencyMs)], now - c.windowMs), consecutiveFails := 0)
    }

    function RecordFailure(): Provider {
      this.(samples := [], consecutiveFails := consecutiveFails + 1)
    }

    function SlotLag(other: Option<nat>): Option<int> {
      if lastSeenSlot.None? || other.None? then None else Some(other.value - lastSeenSlot.value)
    }

    function Judge(c: Config, other: Option<nat>, now: int): Evaluation {
      var p99 := Percentile(DropExpired(samples, now - c.windowMs), 99);
      var lag := SlotLag(other);
      Evaluation(now,
        || (p99.Some? && p99.value > c.unhealthyP99Ms)
        || (lag.Some? && Abs(lag.value) > c.unhealthySlotLag)
        || consecutiveFails >= c.unhealthyConsecutiveFails,
        && (p99.None? || p99.value < c.recoveryP99Ms)
        && (lag.Some? && Abs(lag.value) < c.recoverySlotLag)
        && consecutiveFails == 0)
    }

    /** The verdict of one evaluation on the state, whatever it was computed from. */
    function Apply(c: Config, e: Evaluation): Provider {
      if e.breach then this.(isHealthy := false, recoveryStartMs := None)
      else if isHealthy then this
      else if !e.clean then this.(recoveryStartMs := None)
      else
        var start := if recoveryStartMs.None? then e.now else recoveryStartMs.value;
        if e.now - start >= c.recoveryWindowMs then this.(isHealthy := true, recoveryStartMs := None)
        else this.(recoveryStartMs := Some(start))
    }

    function Evaluate(c: Config, other: Option<nat>, now: int): Provider {
      this.(samples := DropExpired(samples, now - c.windowMs)).Apply(c, Judge(c, other, now))
    }

    /** `evaluate` returns true when it turns the provider healthy. */
    predicate Turns(c: Config, other: Option<nat>, now: int) {
      !isHealthy && Evaluate(c, other, now).isHealthy
    }
  }

  const NewProvider := Provider([], 0, None, true, None)

  class RpcProviderHealth {
    const config: Config
    var samples: seq<Stamped<int>>
    var consecutiveFails: nat
    var lastSeenSlot: Option<nat>
    var isHealthy: bool
    var recoveryStartMs: Option<int>

    function View(): Provider
      reads this
    {
      Provider(samples, consecutiveFails, lastSeenSlot, isHealthy, recoveryStartMs)
    }

    constructor (config: Config)
      ensures this.config == config && View() == NewProvider
    {
      this.config := config;
      samples, consecutiveFails, lastSeenSlot, isHealthy, recoveryStartMs := [], 0, None, true, None;
    }

    method RecordSuccess(latencyMs: int, now: int)
      modifies this
      ensures View() == old(View()).RecordSuccess(config, latencyMs, now)
    {
      samples := samples + [Stamped(now, latencyMs)];
      consecutiveFails := 0;
      PruneWindow(now);
    }

    method RecordFailure()
      modifies this
      ensures View() == old(View()).RecordFailure()
    {
      consecutiveFails := consecutiveFails + 1;
      samples := [];
    }

    method RecordSlot(slot: nat)
      modifies this
      ensures View() == old(View()).(lastSeenSlot := Some(slot))
    {
      lastSeenSlot := Some(slot);
    }

    method PruneWindow(now: int)
      modifies this
      ensures View() == old(View()).(samples := DropExpired(old(samples), now - config.windowMs))
    {
      var cutoff := now - config.windowMs;
      var firstValid := 0;
      while firstValid < |samples| && samples[firstValid].ts < cutoff
        invariant firstValid <= |samples| && View() == old(View())
        invariant DropExpired(samples[firstValid..], cutoff) == DropExpired(samples, cutoff)
      {
        assert samples[firstValid..][1..] == samples[firstValid + 1..];
        firstValid := firstValid + 1;
      }
      samples := samples[firstValid..];
    }

    method Evaluate(otherLastSeenSlot: Option<nat>, now: int) returns (recovered: bool)
      modifies this
      ensures View() == old(View()).Evaluate(config, otherLastSeenSlot, now)
      ensures recovered == old(View()).Turns(config, otherLastSeenSlot, now)
    {
      PruneWindow(now);
      var p99 := Percentile(samples, 99);
      var slotLag := View().SlotLag(otherLastSeenSlot);
      var p99Breach := p99.Some? && p99.value > config.unhealthyP99Ms;
      var lagBreach := slotLag.Some? && Abs(slotLag.value) > config.unhealthySlotLag;
      var failBreach := consecutiveFails >= config.unhealthyConsecutiveFails;
      if p99Breach || lagBreach || failBreach {
        isHealthy, recoveryStartMs := false, None;
        return false;
      }
      if !isHealthy {
        var recoveryP99Ok := p99.None? || p99.value < config.recoveryP99Ms;
        var recoveryLagOk := slotLag.Some? && Abs(slotLag.value) < config.recoverySlotLag;
        var recoveryFailsOk := consecutiveFails == 0;
        if recoveryP99Ok && recoveryLagOk && recoveryFailsOk {
          if recoveryStartMs.None? {
            recoveryStartMs := Some(now);
          }
          if now - recoveryStartMs.value >= config.recoveryWindowMs {
            isHealthy, recoveryStartMs := true, None;
            return true;
          }
        } else {
          recoveryStartMs := None;
        }
      }
      return false;
    }
  }
}
