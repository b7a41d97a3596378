/** The slot floor guards the way to Alchemy, not the way back: a run in which a caller goes back in time. */
module RpcFailback {
  import opened Prelude
  import opened Events
  import opened RpcHealth
  import opened RpcPool

  /** The health thresholds of a pool: three are fixed, the others read as positive integers. */
  predicate PoolHealth(h: Config) {
    && h.windowMs == 60_000 && h.recoveryP99Ms == 1_000 && h.recoverySlotLag == 10
    && h.unhealthyP99Ms > 0 && h.unhealthySlotLag > 0 && h.unhealthyConsecutiveFails > 0 && h.recoveryWindowMs > 0
  }

  // ---------- the run ----------

  /** When the timer starts health tick k. */
  function TickAt(interval: int, k: nat): int {
    if k == 0 then interval else TickAt(interval, k - 1) + interval
  }

  /** Health tick k, answered at once: Alchemy at slot 0, Helius likewise or failing. */
  function HealthTick(k: nat, now: int, heliusUp: bool): seq<Action> {
    [Action(now, TickStarts),
     Action(now, if heliusUp then ProbeOk(k, Helius, 0, 0) else ProbeFailed(k, Helius)),
     Action(now, ProbeOk(k, Alchemy, 0, 0)),
     Action(now, Evaluates(k))]
  }

  /** n health ticks, the first one being tick `from`. */
  function HealthTicks(interval: int, from: nat, n: nat, heliusUp: bool): seq<Action> {
    if n == 0 then []
    else
      var k := from + n - 1;
      HealthTicks(interval, from, n - 1, heliusUp) + HealthTick(k, TickAt(interval, k), heliusUp)
  }

  /** How many intervals the recovery window takes. */
  function Recovery(h: Config, interval: int): nat
    requires PoolHealth(h) && interval > 0
  {
    CeilDiv(h.recoveryWindowMs, interval)
  }

  function Outage(h: Config, interval: int): seq<Action>
    requires PoolHealth(h)
  {
    HealthTicks(interval, 0, h.unhealthyConsecutiveFails, false)
  }

  function AlchemyServes(now: int, drop: nat): seq<Action> {
    [Action(now, Issue(GetSlot)), Action(now, Answer(0, drop, 0))]
  }

  /**
   Helius fails its probes until it is down; Alchemy serves slot `drop`; the probes of both
   come back at slot 0 until Helius has been clean for the recovery window.
   */
  function Failback(h: Config, interval: int, drop: nat): seq<Action>
    requires PoolHealth(h) && interval > 0
  {
    var n := h.unhealthyConsecutiveFails;
    Outage(h, interval) + AlchemyServes(TickAt(interval, n - 1), drop)
    + HealthTicks(interval, n, Recovery(h, interval) + 1, true)
  }

  /** When the last tick of that run is over. */
  function BackAt(h: Config, interval: int): int
    requires PoolHealth(h) && interval > 0
  {
    TickAt(interval, h.unhealthyConsecutiveFails + Recovery(h, interval))
  }

  // ---------- the run goes forward in time ----------

  ghost predicate During(actions: seq<Action>, from: int, to: int) {
    Timed(actions) && forall i :: 0 <= i < |actions| ==> from <= actions[i].now <= to
  }

  lemma Joined(a: seq<Action>, b: seq<Action>, from: int, mid: int, to: int)
    requires During(a, from, mid) && During(b, mid, to) && from <= mid <= to
    ensures During(a + b, from, to)
  {
  }

  lemma TickDuring(k: nat, now: int, heliusUp: bool)
    ensures During(HealthTick(k, now, heliusUp), now, now)
  {
  }

  lemma {:induction false} TicksDuring(interval: int, from: nat, n: nat, heliusUp: bool)
    requires interval > 0
    ensures TickAt(interval, from) <= TickAt(interval, from + n)
    ensures n > 0 ==>
              During(HealthTicks(interval, from, n, heliusUp), TickAt(interval, from), TickAt(interval, from + n - 1))
  {
    if n > 0 {
      TicksDuring(interval, from, n - 1, heliusUp);
      var now := TickAt(interval, from + n - 1);
      var before, last := HealthTicks(interval, from, n - 1, heliusUp), HealthTick(from + n - 1, now, heliusUp);
      TickDuring(from + n - 1, now, heliusUp);
      assert During(before, TickAt(interval, from), now);
      Joined(before, last, TickAt(interval, from), now, now);
    }
  }

  lemma {:induction false} Apart(interval: int, k: nat, n: nat)
    ensures TickAt(interval, k + n) == TickAt(interval, k) + n * interval
  {
    if n > 0 {
      Apart(interval, k, n - 1);
      assert n * interval == (n - 1) * interval + interval;
    }
  }

  lemma FailbackTimed(h: Config, interval: int, drop: nat)
    requires PoolHealth(h) && interval > 0
    ensures During(Failback(h, interval, drop), interval, BackAt(h, interval))
  {
    var n, m := h.unhealthyConsecutiveFails, Recovery(h, interval);
    var down := TickAt(interval, n - 1);
    TicksDuring(interval, 0, n, false);
    TicksDuring(interval, 0, n - 1, false);
    TicksDuring(interval, n, m + 1, true);
    TicksDuring(interval, n, m, true);
    Joined(Outage(h, interval), AlchemyServes(down, drop), interval, down, down);
    assert During(Outage(h, interval) + AlchemyServes(down, drop), interval, TickAt(interval, n));
    Joined(Outage(h, interval) + AlchemyServes(down, drop), HealthTicks(interval, n, m + 1, true), interval,
           TickAt(interval, n), BackAt(h, interval));
  }

  // ---------- judging a provider whose answers were all instant ----------

  ghost predicate Instant(samples: seq<Stamped<int>>) {
    forall i :: 0 <= i < |samples| ==> samples[i].what == 0
  }

  lemma {:induction false} AllAtMostZero(samples: seq<Stamped<int>>)
    requires Instant(samples)
    ensures WithinLimit(samples, 0) == |samples|
  {
    if samples != [] { AllAtMostZero(samples[1..]); }
  }

  lemma StillInstant(samples: seq<Stamped<int>>, cutoff: int)
    requires Instant(samples)
    ensures Instant(DropExpired(samples, cutoff))
  {
    DropIsSuffix(samples, cutoff);
  }

  lemma Judged(h: Config, p: Provider, other: Option<nat>, now: int)
    requires PoolHealth(h) && Instant(p.samples)
    requires other.Some? && p.lastSeenSlot.Some? ==> other == p.lastSeenSlot
    ensures var e := p.Judge(h, other, now);
            && (e.breach <==> p.consecutiveFails >= h.unhealthyConsecutiveFails)
            && (e.clean <==> other.Some? && p.lastSeenSlot.Some? && p.consecutiveFails == 0)
    ensures Instant(p.Evaluate(h, other, now).samples)
  {
    var recent := DropExpired(p.samples, now - h.windowMs);
    StillInstant(p.samples, now - h.windowMs);
    if recent != [] {
      AllAtMostZero(recent);
      PercentileCounts(recent, 99, 0);
    }
  }

  /** Trusted, and nothing against it. */
  ghost predicate Up(p: Provider) {
    p.isHealthy && p.consecutiveFails == 0 && Instant(p.samples) && (p.lastSeenSlot.Some? ==> p.lastSeenSlot.value == 0)
  }

  /** What a provider is after a successful probe at slot 0. */
  function ProbedOk(h: Config, p: Provider, now: int): Provider {
    p.RecordSuccess(h, 0, now).(lastSeenSlot := Some(0))
  }

  lemma ProbedInstant(h: Config, p: Provider, now: int)
    requires Instant(p.samples)
    ensures Instant(p.RecordSuccess(h, 0, now).samples)
  {
    StillInstant(p.samples + [Stamped(now, 0)], now - h.windowMs);
  }

  lemma StaysUp(h: Config, p: Provider, other: Option<nat>, now: int)
    requires PoolHealth(h) && Up(p) && (other.Some? ==> other.value == 0)
    ensures Up(ProbedOk(h, p, now).Evaluate(h, other, now))
    ensures ProbedOk(h, p, now).Evaluate(h, other, now).lastSeenSlot == Some(0)
  {
    ProbedInstant(h, p, now);
    Judged(h, ProbedOk(h, p, now), other, now);
  }

  /** Helius during the outage, after j failed probes. */
  function Failing(h: Config, j: nat): Provider {
    Provider([], j, None, j < h.unhealthyConsecutiveFails, None)
  }

  lemma FailsOnceMore(h: Config, j: nat, now: int)
    requires PoolHealth(h) && j < h.unhealthyConsecutiveFails
    ensures Failing(h, j).RecordFailure().Evaluate(h, Some(0), now) == Failing(h, j + 1)
  {
    Judged(h, Failing(h, j).RecordFailure(), Some(0), now);
  }

  /** Helius on its way back, clean since `since` and last judged at `now`. */
  ghost predicate Recovering(h: Config, p: Provider, since: int, now: int) {
    && p.consecutiveFails == 0 && p.lastSeenSlot == Some(0) && Instant(p.samples)
    && (p.isHealthy || (p.recoveryStartMs == Some(since) && now - since < h.recoveryWindowMs))
  }

  lemma StartsRecovering(h: Config, now: int)
    requires PoolHealth(h)
    ensures Recovering(h, ProbedOk(h, Failing(h, h.unhealthyConsecutiveFails), now).Evaluate(h, Some(0), now), now, now)
  {
    var p := Failing(h, h.unhealthyConsecutiveFails);
    ProbedInstant(h, p, now);
    Judged(h, ProbedOk(h, p, now), Some(0), now);
  }

  lemma RecoversFurther(h: Config, p: Provider, since: int, before: int, now: int)
    requires PoolHealth(h) && Recovering(h, p, since, before)
    ensures Recovering(h, ProbedOk(h, p, now).Evaluate(h, Some(0), now), since, now)
  {
    ProbedInstant(h, p, now);
    Judged(h, ProbedOk(h, p, now), Some(0), now);
  }

  // ---------- one health tick in the pool ----------

  /** No read or tick is on its way, and k ticks were made. */
  predicate Idle(w: World, k: nat) {
    w.pending == map[] && w.ticks == map[] && w.nextTick == k
  }

  predicate IsRun(c: PoolConfig, actions: seq<Action>, w: World) {
    w == Run(c, actions)
  }

  /** The world after `actions`. */
  ghost predicate Reaches(c: PoolConfig, actions: seq<Action>, w: World) {
    forall v :: IsRun(c, actions, v) ==> v == w
  }

  lemma Reached(c: PoolConfig, actions: seq<Action>, w: World)
    ensures Reaches(c, actions, w) <==> w == Run(c, actions)
  {
    assert IsRun(c, actions, Run(c, actions));
  }

  lemma TwoMore(c: PoolConfig, actions: seq<Action>, a: Action, b: Action)
    ensures Run(c, actions + [a, b]) == Next(c, Next(c, Run(c, actions), a), b)
  {
    OneMore(c, actions, a);
    OneMore(c, actions + [a], b);
    assert actions + [a, b] == actions + [a] + [b];
  }

  function HeliusProbed(h: Config, p: Provider, now: int, heliusUp: bool): Provider {
    if heliusUp then ProbedOk(h, p, now) else p.RecordFailure()
  }

  lemma HeliusAnswers(c: PoolConfig, w: World, k: nat, now: int, heliusUp: bool, v: World)
    requires c.enabled && Idle(w, k)
    requires v == Next(c, Next(c, w, HealthTick(k, now, heliusUp)[0]), HealthTick(k, now, heliusUp)[1])
    ensures v.pool == w.pool.(helius := HeliusProbed(c.health, w.pool.helius, now, heliusUp))
    ensures v.ticks == map[k := {Alchemy}] && v.nextTick == k + 1
    ensures v.pending == w.pending && v.nextId == w.nextId && v.served == w.served
  {
    assert {Helius, Alchemy} - {Helius} == {Alchemy};
  }

  lemma AlchemyAnswers(c: PoolConfig, u: World, k: nat, now: int, v: World)
    requires u.ticks == map[k := {Alchemy}]
    requires v == Next(c, Next(c, u, Action(now, ProbeOk(k, Alchemy, 0, 0))), Action(now, Evaluates(k)))
    ensures v.pool == u.pool.(alchemy := ProbedOk(c.health, u.pool.alchemy, now)).Tick(c, now)
    ensures v.ticks == map[] && v.nextTick == u.nextTick
    ensures v.pending == u.pending && v.nextId == u.nextId && v.served == u.served
  {
    var w := Next(c, u, Action(now, ProbeOk(k, Alchemy, 0, 0)));
    assert {Alchemy} - {Alchemy} == {};
    assert w.Settled(k) && w.ticks - {k} == map[];
  }

  lemma Judging(c: PoolConfig, p: Pool, now: int, q: Pool)
    requires q == p.Tick(c, now) && p.alchemy.lastSeenSlot == Some(0) && c.enabled
    requires p.helius.lastSeenSlot.Some? ==> p.helius.lastSeenSlot.value == 0
    ensures q.helius == p.helius.Evaluate(c.health, Some(0), now)
    ensures q.alchemy == p.alchemy.Evaluate(c.health, p.helius.lastSeenSlot, now)
    ensures q.highestServedSlot == p.highestServedSlot && (q.helius.isHealthy ==> q.activeProvider == Helius)
  {
  }

  lemma OneTick(c: PoolConfig, actions: seq<Action>, w: World, k: nat, now: int, heliusUp: bool) returns (v: World)
    requires c.enabled && PoolHealth(c.health) && Reaches(c, actions, w) && Idle(w, k) && Up(w.pool.alchemy)
    requires heliusUp || w.pool.helius.lastSeenSlot.None?
    ensures Reaches(c, actions + HealthTick(k, now, heliusUp), v) && Idle(v, k + 1)
    ensures v.nextId == w.nextId && v.served == w.served && v.pool.highestServedSlot == w.pool.highestServedSlot
    ensures v.pool.helius == HeliusProbed(c.health, w.pool.helius, now, heliusUp).Evaluate(c.health, Some(0), now)
    ensures Up(v.pool.alchemy) && v.pool.alchemy.lastSeenSlot == Some(0)
    ensures v.pool.helius.isHealthy ==> v.pool.activeProvider == Helius
  {
    var t := HealthTick(k, now, heliusUp);
    var u := Next(c, Next(c, w, t[0]), t[1]);
    v := Next(c, Next(c, u, t[2]), t[3]);
    TwoMore(c, actions, t[0], t[1]);
    TwoMore(c, actions + [t[0], t[1]], t[2], t[3]);
    assert actions + t == actions + [t[0], t[1]] + [t[2], t[3]];
    HeliusAnswers(c, w, k, now, heliusUp, u);
    AlchemyAnswers(c, u, k, now, v);
    Judging(c, u.pool.(alchemy := ProbedOk(c.health, u.pool.alchemy, now)), now, v.pool);
    StaysUp(c.health, w.pool.alchemy, u.pool.helius.lastSeenSlot, now);
    Reached(c, actions, w);
    Reached(c, actions + t, v);
  }

  // ---------- down, served, and back ----------

  /** After j ticks whose Helius probe failed. */
  ghost predicate InOutage(c: PoolConfig, w: World, j: nat) {
    && Idle(w, j) && w.nextId == 0 && w.served == [] && w.pool.highestServedSlot == 0
    && w.pool.helius == Failing(c.health, j) && Up(w.pool.alchemy)
  }

  lemma {:induction false} GoesDown(c: PoolConfig, interval: int, j: nat) returns (w: World)
    requires PoolHealth(c.health) && c.enabled && j <= c.health.unhealthyConsecutiveFails
    ensures Reaches(c, HealthTicks(interval, 0, j, false), w) && InOutage(c, w, j)
  {
    if j == 0 {
      w := NewWorld;
      Reached(c, [], w);
    } else {
      var v := GoesDown(c, interval, j - 1);
      var now := TickAt(interval, j - 1);
      FailsOnceMore(c.health, j - 1, now);
      w := OneTick(c, HealthTicks(interval, 0, j - 1, false), v, j - 1, now, false);
    }
  }

  ghost predicate AlchemyServed(w: World, k: nat, drop: nat) {
    Idle(w, k) && w.nextId == 1 && w.served == [Served(drop, Alchemy)] && Up(w.pool.alchemy)
  }

  lemma ServesFromAlchemy(c: PoolConfig, w: World, now: int, drop: nat, v: World)
    requires PoolHealth(c.health) && c.enabled && InOutage(c, w, c.health.unhealthyConsecutiveFails)
    requires v == Next(c, Next(c, w, AlchemyServes(now, drop)[0]), AlchemyServes(now, drop)[1])
    ensures AlchemyServed(v, c.health.unhealthyConsecutiveFails, drop) && v.pool.helius == w.pool.helius
  {
    ProbedInstant(c.health, w.pool.alchemy, now);
    var u := Next(c, w, AlchemyServes(now, drop)[0]);
    assert u.pending == map[0 := Read(GetSlot, Alchemy, 0, 0)];
    assert u.pending - {0} == map[];
  }

  ghost predicate ComingBack(c: PoolConfig, w: World, k: nat, drop: nat, since: int, now: int) {
    && AlchemyServed(w, k, drop) && Recovering(c.health, w.pool.helius, since, now)
    && (w.pool.helius.isHealthy ==> w.pool.activeProvider == Helius)
  }

  lemma OneCleanTick(c: PoolConfig, actions: seq<Action>, w: World, k: nat, drop: nat, since: int, now: int,
                     tick: seq<Action>) returns (v: World)
    requires PoolHealth(c.health) && c.enabled && Reaches(c, actions, w) && AlchemyServed(w, k, drop)
    requires Recovering(c.health, ProbedOk(c.health, w.pool.helius, now).Evaluate(c.health, Some(0), now), since, now)
    requires tick == HealthTick(k, now, true)
    ensures Reaches(c, actions + tick, v) && ComingBack(c, v, k + 1, drop, since, now)
  {
    v := OneTick(c, actions, w, k, now, true);
  }

  lemma FirstCleanTick(c: PoolConfig, actions: seq<Action>, w: World, n: nat, drop: nat, now: int, tick: seq<Action>)
    returns (v: World)
    requires PoolHealth(c.health) && c.enabled && Reaches(c, actions, w) && n == c.health.unhealthyConsecutiveFails
    requires AlchemyServed(w, n, drop) && w.pool.helius == Failing(c.health, n) && tick == HealthTick(n, now, true)
    ensures Reaches(c, actions + tick, v) && ComingBack(c, v, n + 1, drop, now, now)
  {
    StartsRecovering(c.health, now);
    v := OneCleanTick(c, actions, w, n, drop, now, now, tick);
  }

  lemma NextCleanTick(c: PoolConfig, actions: seq<Action>, w: World, k: nat, drop: nat, since: int, before: int,
                      now: int, tick: seq<Action>) returns (v: World)
    requires PoolHealth(c.health) && c.enabled && Reaches(c, actions, w) && ComingBack(c, w, k, drop, since, before)
    requires tick == HealthTick(k, now, true)
    ensures Reaches(c, actions + tick, v) && ComingBack(c, v, k + 1, drop, since, now)
  {
    RecoversFurther(c.health, w.pool.helius, since, before, now);
    v := OneCleanTick(c, actions, w, k, drop, since, now, tick);
  }

  lemma OneMoreTick(actions: seq<Action>, interval: int, n: nat, m: nat, before: seq<Action>, last: seq<Action>)
    requires m > 0 && before == actions + HealthTicks(interval, n, m - 1, true)
    requires last == HealthTick(n + m - 1, TickAt(interval, n + m - 1), true)
    ensures actions + HealthTicks(interval, n, m, true) == before + last
    ensures m == 1 ==> before == actions
  {
  }

  /** Helius has had m clean ticks. */
  lemma {:induction false} ComesBack(c: PoolConfig, actions: seq<Action>, w: World, interval: int, n: nat, drop: nat,
                                     m: nat) returns (v: World)
    requires PoolHealth(c.health) && c.enabled && Reaches(c, actions, w) && n == c.health.unhealthyConsecutiveFails
    requires AlchemyServed(w, n, drop) && w.pool.helius == Failing(c.health, n) && m > 0
    ensures Reaches(c, actions + HealthTicks(interval, n, m, true), v)
    ensures ComingBack(c, v, n + m, drop, TickAt(interval, n), TickAt(interval, n + m - 1))
  {
    var since, k := TickAt(interval, n), n + m - 1;
    var before, last := actions + HealthTicks(interval, n, m - 1, true), HealthTick(k, TickAt(interval, k), true);
    OneMoreTick(actions, interval, n, m, before, last);
    if m == 1 {
      v := FirstCleanTick(c, before, w, n, drop, since, last);
    } else {
      var u := ComesBack(c, actions, w, interval, n, drop, m - 1);
      v := NextCleanTick(c, before, u, k, drop, since, TickAt(interval, k - 1), TickAt(interval, k), last);
    }
  }

  lemma LongEnough(h: Config, interval: int)
    requires PoolHealth(h) && interval > 0
    ensures BackAt(h, interval) - TickAt(interval, h.unhealthyConsecutiveFails) >= h.recoveryWindowMs
  {
    Apart(interval, h.unhealthyConsecutiveFails, Recovery(h, interval));
  }

  lemma OutageServed(c: PoolConfig, interval: int, drop: nat, actions: seq<Action>) returns (w: World)
    requires c.enabled && PoolHealth(c.health) && interval > 0
    requires var n := c.health.unhealthyConsecutiveFails;
             actions == Outage(c.health, interval) + AlchemyServes(TickAt(interval, n - 1), drop)
    ensures var n := c.health.unhealthyConsecutiveFails;
            Reaches(c, actions, w) && AlchemyServed(w, n, drop) && w.pool.helius == Failing(c.health, n)
  {
    var now := TickAt(interval, c.health.unhealthyConsecutiveFails - 1);
    var u := GoesDown(c, interval, c.health.unhealthyConsecutiveFails);
    w := Run(c, actions);
    Reached(c, Outage(c.health, interval), u);
    Reached(c, actions, w);
    TwoMore(c, Outage(c.health, interval), AlchemyServes(now, drop)[0], AlchemyServes(now, drop)[1]);
    ServesFromAlchemy(c, u, now, drop, w);
  }

  /** Alchemy has served, Helius is trusted again and last seen at slot 0. */
  lemma HeliusIsBack(c: PoolConfig, interval: int, drop: nat) returns (w: World)
    requires c.enabled && PoolHealth(c.health) && interval > 0
    ensures Reaches(c, Failback(c.health, interval, drop), w)
    ensures w.pending == map[] && w.nextId == 1 && w.served == [Served(drop, Alchemy)]
    ensures w.pool.helius.isHealthy && w.pool.helius.lastSeenSlot == Some(0) && w.pool.activeProvider == Helius
  {
    var n, m := c.health.unhealthyConsecutiveFails, Recovery(c.health, interval);
    var served := Outage(c.health, interval) + AlchemyServes(TickAt(interval, n - 1), drop);
    var u := OutageServed(c, interval, drop, served);
    w := ComesBack(c, served, u, interval, n, drop, m + 1);
    LongEnough(c.health, interval);
  }

  /**
   The way back has no floor. For every configured pool, every health-check interval and every
   `drop` there is a run, each tick of which probes both providers before it evaluates, in
   which Alchemy serves a slot, Helius recovers, and the next read is routed to Helius: answered
   at the slot Helius was last seen at, the caller goes back by `drop`, which is within the
   slack only if `drop` is.
   */
  lemma FailbackGoesBack(c: PoolConfig, interval: int, drop: nat)
    requires c.enabled && PoolHealth(c.health) && interval > 0
    ensures var now := BackAt(c.health, interval);
            var before := Failback(c.health, interval, drop);
            var w, v := Run(c, before), Run(c, before + [Action(now, Issue(GetSlot))]);
            && Timed(before) && (forall i :: 0 <= i < |before| ==> before[i].now <= now)
            && w.served == v.served == [Served(drop, Alchemy)]
            && w.pool.helius.isHealthy && w.pool.activeProvider == Helius
            && v.pending == map[1 := Read(GetSlot, Helius, 1, 0)]
            && (KeepsFloor(c, v.pending[1], v.served) <==> drop <= c.slotFloorSlack)
            && Next(c, v, Action(now, Answer(1, 0, 0))).served == [Served(drop, Alchemy), Served(0, Helius)]
  {
    var now, before := BackAt(c.health, interval), Failback(c.health, interval, drop);
    FailbackTimed(c.health, interval, drop);
    var w := HeliusIsBack(c, interval, drop);
    Reached(c, before, w);
    LastRead(c, w, drop, now);
    OneMore(c, before, Action(now, Issue(GetSlot)));
    assert before + [Action(now, Issue(GetSlot))] + [] == before + [Action(now, Issue(GetSlot))];
    FloorExactly(c, before, now, []);
  }

  lemma LastRead(c: PoolConfig, w: World, drop: nat, now: int)
    requires c.enabled && w.pool.helius.isHealthy && w.pool.helius.lastSeenSlot == Some(0)
    requires w.pending == map[] && w.nextId == 1 && w.served == [Served(drop, Alchemy)]
    ensures var v := Next(c, w, Action(now, Issue(GetSlot)));
            && v.pending == map[1 := Read(GetSlot, Helius, 1, 0)] && v.served == w.served
            && w.pool.Route(c, GetSlot) == Helius && (HeliusCovers(c, w) <==> drop <= c.slotFloorSlack)
            && Next(c, v, Action(now, Answer(1, 0, 0))).served == [Served(drop, Alchemy), Served(0, Helius)]
  {
    assert w.served[0] == Served(drop, Alchemy);
  }
}
