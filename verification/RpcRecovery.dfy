/** What a provider's health says about everything that was ever recorded and evaluated. */
module RpcRecovery {
  import opened Prelude
  import opened Events
  import opened RpcHealth

  datatype Op =
    | Success(now: int, latencyMs: int)
    | Failure(now: int)
    | Slot(now: int, slot: nat)
    | Evaluated(now: int, other: Option<nat>)

  function Next(c: Config, p: Provider, op: Op): Provider {
    match op
    case Success(now, latencyMs) => p.RecordSuccess(c, latencyMs, now)
    case Failure(_) => p.RecordFailure()
    case Slot(_, slot) => p.(lastSeenSlot := Some(slot))
    case Evaluated(now, other) => p.Evaluate(c, other, now)
  }

  function Run(c: Config, ops: seq<Op>): Provider {
    if ops == [] then NewProvider else Next(c, Run(c, ops[..|ops| - 1]), ops[|ops| - 1])
  }

  ghost predicate Clocked(ops: seq<Op>) {
    forall i, j :: 0 <= i < j < |ops| ==> ops[i].now <= ops[j].now
  }

  // ---------- the latency window ----------

  /** The successes since the last failure. */
  function Recorded(ops: seq<Op>): seq<Stamped<int>> {
    if ops == [] then []
    else
      var before, op := ops[..|ops| - 1], ops[|ops| - 1];
      match op
      case Success(now, latencyMs) => Recorded(before) + [Stamped(now, latencyMs)]
      case Failure(_) => []
      case Slot(_, _) => Recorded(before)
      case Evaluated(_, _) => Recorded(before)
  }

  /** Pruned early or not, and one more sample: the same once pruned. */
  lemma SampleAgrees(samples: seq<Stamped<int>>, recorded: seq<Stamped<int>>, x: Stamped<int>, early: int, cutoff: int)
    requires DropExpired(samples, cutoff) == DropExpired(recorded, cutoff) && early <= cutoff
    ensures DropExpired(DropExpired(samples + [x], early), cutoff) == DropExpired(recorded + [x], cutoff)
  {
    DropAgain(samples + [x], early, cutoff);
    DropDrop(samples, [x], cutoff, cutoff);
    DropDrop(recorded, [x], cutoff, cutoff);
  }

  lemma {:induction false} WindowAgrees(c: Config, ops: seq<Op>, now: int)
    requires Clocked(ops) && forall i :: 0 <= i < |ops| ==> ops[i].now <= now
    ensures DropExpired(Run(c, ops).samples, now - c.windowMs) == DropExpired(Recorded(ops), now - c.windowMs)
  {
    if ops != [] {
      var before, op, cutoff := ops[..|ops| - 1], ops[|ops| - 1], now - c.windowMs;
      WindowAgrees(c, before, now);
      var samples := Run(c, before).samples;
      match op
      case Success(t, latencyMs) =>
        SampleAgrees(samples, Recorded(before), Stamped(t, latencyMs), t - c.windowMs, cutoff);
      case Failure(_) =>
      case Slot(_, _) =>
      case Evaluated(t, other) =>
        DropAgain(samples, t - c.windowMs, cutoff);
    }
  }

  lemma {:induction false} RecordedInOrder(ops: seq<Op>)
    requires Clocked(ops)
    ensures Sorted(Recorded(ops)) && forall i :: 0 <= i < |Recorded(ops)| ==> Recorded(ops)[i].ts <= ops[|ops| - 1].now
  {
    if ops != [] {
      RecordedInOrder(ops[..|ops| - 1]);
    }
  }

  /**
   The latency verdict of an evaluation is about exactly the successes of the last
   window since the last failure: P99 is over the limit when fewer than 99% of them
   are within it.
   */
  lemma LatencyVerdict(c: Config, ops: seq<Op>, now: int, limit: int)
    requires Clocked(ops) && forall i :: 0 <= i < |ops| ==> ops[i].now <= now
    ensures var p99 := Percentile(DropExpired(Run(c, ops).samples, now - c.windowMs), 99);
            var recent := Since(Recorded(ops), now - c.windowMs);
            (p99.Some? && p99.value > limit <==> 100 * WithinLimit(recent, limit) < 99 * |recent|)
  {
    var recent := Since(Recorded(ops), now - c.windowMs);
    WindowAgrees(c, ops, now);
    RecordedInOrder(ops);
    DropIsSince(Recorded(ops), now - c.windowMs);
    if recent != [] {
      PercentileCounts(recent, 99, limit);
    }
  }

  // ---------- what an evaluation sees ----------

  /** The slot the provider was last seen at. */
  function LastSlot(ops: seq<Op>): Option<nat> {
    if ops == [] then None
    else if ops[|ops| - 1].Slot? then Some(ops[|ops| - 1].slot)
    else LastSlot(ops[..|ops| - 1])
  }

  /** The failures since the last success. */
  function TrailingFailures(ops: seq<Op>): nat {
    if ops == [] || ops[|ops| - 1].Success? then 0
    else TrailingFailures(ops[..|ops| - 1]) + if ops[|ops| - 1].Failure? then 1 else 0
  }

  /** Both slots are known and at most `lag` apart. */
  predicate SlotsWithin(one: Option<nat>, other: Option<nat>, lag: int) {
    one.Some? && other.Some? && one.value - other.value <= lag && other.value - one.value <= lag
  }

  /**
   What makes an evaluation find a provider unhealthy: fewer than 99% of the recent successes
   since the last failure in time, slots too far apart, or too many failures in a row.
   */
  predicate Breaches(c: Config, ops: seq<Op>, other: Option<nat>, now: int) {
    var recent := Since(Recorded(ops), now - c.windowMs);
    || 100 * WithinLimit(recent, c.unhealthyP99Ms) < 99 * |recent|
    || (LastSlot(ops).Some? && other.Some? && !SlotsWithin(LastSlot(ops), other, c.unhealthySlotLag))
    || TrailingFailures(ops) >= c.unhealthyConsecutiveFails
  }

  /**
   What an evaluation asks of a provider that is to recover: at least 99% of those successes
   faster than the recovery limit, both slots known and closer than the recovery lag, and no
   failure since the last success.
   */
  predicate Recovers(c: Config, ops: seq<Op>, other: Option<nat>, now: int) {
    var recent := Since(Recorded(ops), now - c.windowMs);
    && 100 * WithinLimit(recent, c.recoveryP99Ms - 1) >= 99 * |recent|
    && SlotsWithin(LastSlot(ops), other, c.recoverySlotLag - 1)
    && TrailingFailures(ops) == 0
  }

  lemma {:induction false} FieldsFromOps(c: Config, ops: seq<Op>)
    ensures Run(c, ops).lastSeenSlot == LastSlot(ops) && Run(c, ops).consecutiveFails == TrailingFailures(ops)
  {
    if ops != [] { FieldsFromOps(c, ops[..|ops| - 1]); }
  }

  /** An evaluation judges the provider by everything recorded so far, exactly so. */
  lemma JudgedExactly(c: Config, ops: seq<Op>, other: Option<nat>, now: int)
    requires Clocked(ops) && forall i :: 0 <= i < |ops| ==> ops[i].now <= now
    ensures Run(c, ops).Judge(c, other, now)
         == Evaluation(now, Breaches(c, ops, other, now), Recovers(c, ops, other, now))
  {
    FieldsFromOps(c, ops);
    LatencyVerdict(c, ops, now, c.unhealthyP99Ms);
    LatencyVerdict(c, ops, now, c.recoveryP99Ms - 1);
  }

  /** Every evaluation of the run, in order, with what the records before it showed. */
  function Evaluations(c: Config, ops: seq<Op>): seq<Evaluation> {
    if ops == [] then []
    else
      var before, op := ops[..|ops| - 1], ops[|ops| - 1];
      Evaluations(c, before) +
      if !op.Evaluated? then []
      else [Evaluation(op.now, Breaches(c, before, op.other, op.now), Recovers(c, before, op.other, op.now))]
  }

  // ---------- hysteresis ----------

  /** The start of the unbroken run of good evaluations at the end, |h| if there is none. */
  function RunStart(h: seq<Evaluation>): (k: nat)
    ensures k <= |h|
    ensures forall i :: k <= i < |h| ==> h[i].Ok()
    ensures k > 0 ==> !h[k - 1].Ok()
  {
    if h == [] || !h[|h| - 1].Ok() then |h| else RunStart(h[..|h| - 1])
  }

  /** Evaluations k to j were all good and span the recovery window. */
  ghost predicate Lasting(c: Config, h: seq<Evaluation>, k: nat, j: nat) {
    && k <= j < |h|
    && (forall i :: k <= i <= j ==> h[i].Ok())
    && h[j].now - h[k].now >= c.recoveryWindowMs
  }

  /** Some lasting run of good evaluations came after b. */
  ghost predicate Cleared(c: Config, h: seq<Evaluation>, b: nat) {
    exists k: nat, j: nat :: b < k && Lasting(c, h, k, j)
  }

  /** The last evaluation completes a lasting run of good ones. */
  ghost predicate Completes(c: Config, h: seq<Evaluation>) {
    exists k: nat, j: nat :: j == |h| - 1 && Lasting(c, h, k, j)
  }

  ghost predicate AllCleared(c: Config, h: seq<Evaluation>) {
    forall b: nat :: b < |h| && h[b].breach ==> Cleared(c, h, b)
  }

  ghost predicate InOrder(h: seq<Evaluation>) {
    forall i, j :: 0 <= i < j < |h| ==> h[i].now <= h[j].now
  }

  function StartOf(h: seq<Evaluation>): Option<int> {
    if RunStart(h) == |h| then None else Some(h[RunStart(h)].now)
  }

  ghost predicate Tracks(c: Config, h: seq<Evaluation>, p: Provider) {
    && (p.isHealthy <==> AllCleared(c, h))
    && p.recoveryStartMs == if p.isHealthy then None else StartOf(h)
  }

  lemma StillCleared(c: Config, h: seq<Evaluation>, e: Evaluation, b: nat)
    requires Cleared(c, h, b)
    ensures Cleared(c, h + [e], b)
  {
    var k: nat, j: nat :| b < k && Lasting(c, h, k, j);
    assert Lasting(c, h + [e], k, j);
  }

  /** One more evaluation clears a breach only by completing a lasting run itself. */
  lemma NewlyCleared(c: Config, h: seq<Evaluation>, e: Evaluation, b: nat)
    requires InOrder(h + [e]) && b < |h|
    requires Cleared(c, h + [e], b) && !Cleared(c, h, b)
    ensures e.Ok() && e.now - (h + [e])[RunStart(h + [e])].now >= c.recoveryWindowMs
  {
    var longer := h + [e];
    var k: nat, j: nat :| b < k && Lasting(c, longer, k, j);
    if j < |h| {
      assert forall i :: k <= i <= j ==> longer[i] == h[i];
      assert Lasting(c, h, k, j);
    } else {
      assert longer[|h|] == e;
      LatestRun(longer, k);
    }
  }

  lemma LatestRun(h: seq<Evaluation>, k: nat)
    requires InOrder(h) && k < |h| && forall i :: k <= i < |h| ==> h[i].Ok()
    ensures RunStart(h) <= k && h[RunStart(h)].now <= h[k].now
  {
    var s := RunStart(h);
    assert s > 0 ==> !h[s - 1].Ok();
  }

  lemma RunStartStep(h: seq<Evaluation>, e: Evaluation)
    ensures RunStart(h + [e]) == if e.Ok() then RunStart(h) else |h| + 1
  {
    assert (h + [e])[..|h|] == h;
  }

  /** A lasting run up to now clears every breach. */
  lemma RunClears(c: Config, h: seq<Evaluation>)
    requires h != [] && RunStart(h) < |h| && h[|h| - 1].now - h[RunStart(h)].now >= c.recoveryWindowMs
    ensures AllCleared(c, h)
  {
    assert Lasting(c, h, RunStart(h), |h| - 1);
  }

  lemma BreachTracks(c: Config, h: seq<Evaluation>, p: Provider, e: Evaluation)
    requires e.breach
    ensures Tracks(c, h + [e], p.Apply(c, e))
  {
    var longer := h + [e];
    RunStartStep(h, e);
    assert !Cleared(c, longer, |h|);
    assert longer[|h|].breach;
  }

  lemma HealthyTracks(c: Config, h: seq<Evaluation>, p: Provider, e: Evaluation)
    requires Tracks(c, h, p) && p.isHealthy && !e.breach
    ensures Tracks(c, h + [e], p.Apply(c, e))
  {
    var longer := h + [e];
    forall b: nat | b < |longer| && longer[b].breach ensures Cleared(c, longer, b) {
      assert h[b].breach;
      StillCleared(c, h, e, b);
    }
  }

  lemma UnhealthyTracks(c: Config, h: seq<Evaluation>, p: Provider, e: Evaluation)
    requires Tracks(c, h, p) && !p.isHealthy && !e.breach && InOrder(h + [e])
    ensures Tracks(c, h + [e], p.Apply(c, e))
  {
    var longer := h + [e];
    RunStartStep(h, e);
    assert longer[|h|] == e;
    var k := RunStart(longer);
    if e.clean && e.now - longer[k].now >= c.recoveryWindowMs {
      RunClears(c, longer);
    } else {
      var b: nat :| b < |h| && h[b].breach && !Cleared(c, h, b);
      assert longer[b].breach;
      if Cleared(c, longer, b) {
        NewlyCleared(c, h, e, b);
      }
    }
  }

  lemma EvaluateTracks(c: Config, h: seq<Evaluation>, p: Provider, other: Option<nat>, now: int)
    requires Tracks(c, h, p) && InOrder(h + [p.Judge(c, other, now)])
    ensures Tracks(c, h + [p.Judge(c, other, now)], p.Evaluate(c, other, now))
  {
    var e := p.Judge(c, other, now);
    var pruned := p.(samples := DropExpired(p.samples, now - c.windowMs));
    if e.breach { BreachTracks(c, h, pruned, e); }
    else if p.isHealthy { HealthyTracks(c, h, pruned, e); }
    else { UnhealthyTracks(c, h, pruned, e); }
  }

  lemma {:induction false} RunTracks(c: Config, ops: seq<Op>)
    requires Clocked(ops)
    ensures Tracks(c, Evaluations(c, ops), Run(c, ops))
    ensures InOrder(Evaluations(c, ops))
    ensures forall i :: 0 <= i < |Evaluations(c, ops)| ==> Evaluations(c, ops)[i].now <= ops[|ops| - 1].now
  {
    if ops != [] {
      var before, op := ops[..|ops| - 1], ops[|ops| - 1];
      RunTracks(c, before);
      var h, p := Evaluations(c, before), Run(c, before);
      if op.Evaluated? {
        JudgedExactly(c, before, op.other, op.now);
        assert Evaluations(c, ops) == h + [p.Judge(c, op.other, op.now)];
        EvaluateTracks(c, h, p, op.other, op.now);
      } else {
        assert Evaluations(c, ops) == h;
      }
    }
  }

  /**
   Hysteresis, in both directions: a provider is healthy exactly when every evaluation so far
   at which its records were in breach was followed by an unbroken run of evaluations at which
   they were not and met the recovery criteria, spanning the recovery window.
   */
  lemma HealthyExactly(c: Config, ops: seq<Op>)
    requires Clocked(ops)
    ensures Run(c, ops).isHealthy <==> AllCleared(c, Evaluations(c, ops))
  {
    RunTracks(c, ops);
  }

  /**
   An evaluation turns the provider healthy exactly when it was unhealthy and this
   evaluation completes an unbroken good run that began at least a recovery window ago.
   */
  lemma TurnsExactly(c: Config, ops: seq<Op>, now: int, other: Option<nat>)
    requires Clocked(ops + [Evaluated(now, other)])
    ensures Run(c, ops).Turns(c, other, now) <==>
            !Run(c, ops).isHealthy && Completes(c, Evaluations(c, ops + [Evaluated(now, other)]))
  {
    var all := ops + [Evaluated(now, other)];
    assert all[..|ops|] == ops;
    assert Clocked(ops);
    RunTracks(c, ops);
    RunTracks(c, all);
    forall i | 0 <= i < |ops| ensures ops[i].now <= now { assert all[i].now <= all[|ops|].now; }
    JudgedExactly(c, ops, other, now);
    assert Evaluations(c, all) == Evaluations(c, ops) + [Run(c, ops).Judge(c, other, now)];
    TurnsFrom(c, Evaluations(c, ops), Run(c, ops), other, now);
  }

  lemma TurnsFrom(c: Config, h: seq<Evaluation>, p: Provider, other: Option<nat>, now: int)
    requires Tracks(c, h, p) && InOrder(h + [p.Judge(c, other, now)])
    ensures p.Turns(c, other, now) <==> !p.isHealthy && Completes(c, h + [p.Judge(c, other, now)])
  {
    var e := p.Judge(c, other, now);
    var longer := h + [e];
    RunStartStep(h, e);
    if p.Turns(c, other, now) {
      assert Lasting(c, longer, RunStart(longer), |h|);
    }
    if !p.isHealthy && Completes(c, longer) {
      var k: nat, j: nat :| j == |longer| - 1 && Lasting(c, longer, k, j);
      LatestRun(longer, k);
    }
  }
}
