/** Routing reads over two providers, with a high-water slot no failover may fall behind. */
module RpcPool {
  import opened Prelude
  import opened RpcHealth
  import R = RpcRecovery

  datatype ProviderName = Helius | Alchemy

  datatype Method = GetSlot | GetProgramAccounts | OtherRead

  datatype PoolConfig = PoolConfig(enabled: bool, forceAlchemyGpa: bool, slotFloorSlack: nat, health: Config)

  function SlotOr0(slot: Option<nat>): nat {
    if slot.None? then 0 else slot.value
  }

  datatype Pool = Pool(
    helius: Provider, alchemy: Provider, highestServedSlot: nat, activeProvider: ProviderName, failoverCount: nat)
  {
    /** Alchemy is healthy by stale data: materially below what was already served. */
    predicate BelowHighWater(c: PoolConfig) {
      highestServedSlot > 0 && SlotOr0(alchemy.lastSeenSlot) < highestServedSlot - c.slotFloorSlack
    }

    function Route(c: PoolConfig, m: Method): ProviderName {
      if !c.enabled then Helius
      else if m == GetProgramAccounts && c.forceAlchemyGpa then (if alchemy.isHealthy then Alchemy else Helius)
      else if helius.isHealthy then Helius
      else if !alchemy.isHealthy || BelowHighWater(c) then Helius
      else Alchemy
    }

    function Of(name: ProviderName): Provider {
      if name == Helius then helius else alchemy
    }

    function With(name: ProviderName, p: Provider): Pool {
      if name == Helius then this.(helius := p) else this.(alchemy := p)
    }

    function Raise(slot: nat): Pool {
      this.(highestServedSlot := Max(highestServedSlot, slot))
    }

    function Tick(c: PoolConfig, now: int): Pool {
      var hs, as_ := helius.lastSeenSlot, alchemy.lastSeenSlot;
      var p := Raise(Max(SlotOr0(hs), SlotOr0(as_)))
               .(helius := helius.Evaluate(c.health, as_, now), alchemy := alchemy.Evaluate(c.health, hs, now));
      if p.Route(c, OtherRead) == activeProvider then p
      else p.(activeProvider := p.Route(c, OtherRead), failoverCount := failoverCount + 1)
    }
  }

  const NewPool := Pool(NewProvider, NewProvider, 0, Helius, 0)

  /** The pool object; each method is one stretch of code between two awaits. */
  class RpcPool {
    const config: PoolConfig
    const heliusHealth: RpcProviderHealth
    const alchemyHealth: RpcProviderHealth
    var highestServedSlot: nat
    var activeProvider: ProviderName
    var failoverCount: nat

    ghost predicate Valid() {
      heliusHealth != alchemyHealth && heliusHealth.config == alchemyHealth.config == config.health
    }

    function View(): Pool
      reads this, heliusHealth, alchemyHealth
    {
      Pool(heliusHealth.View(), alchemyHealth.View(), highestServedSlot, activeProvider, failoverCount)
    }

    constructor (config: PoolConfig)
      ensures Valid() && fresh(heliusHealth) && fresh(alchemyHealth) && this.config == config && View() == NewPool
    {
      this.config := config;
      heliusHealth := new RpcProviderHealth(config.health);
      alchemyHealth := new RpcProviderHealth(config.health);
      highestServedSlot, activeProvider, failoverCount := 0, Helius, 0;
    }

    method PickProvider(m: Method) returns (name: ProviderName)
      ensures name == View().Route(config, m)
    {
      if !config.enabled {
        return Helius;
      }
      if m == GetProgramAccounts && config.forceAlchemyGpa {
        if alchemyHealth.isHealthy {
          return Alchemy;
        }
        return Helius;
      }
      if heliusHealth.isHealthy {
        return Helius;
      }
      if alchemyHealth.isHealthy {
        var alchemySlot := SlotOr0(alchemyHealth.lastSeenSlot);
        if highestServedSlot > 0 && alchemySlot < highestServedSlot - config.slotFloorSlack {
          return Helius;
        }
        return Alchemy;
      }
      return Helius;
    }

    /** A read came back; `getSlot` also raises the high-water mark. */
    method SettleRead(name: ProviderName, m: Method, slot: nat, latencyMs: int, now: int)
      requires Valid()
      modifies this, heliusHealth, alchemyHealth
      ensures View() == var p := old(View());
                        var q := p.With(name, p.Of(name).RecordSuccess(config.health, latencyMs, now));
                        if m == GetSlot then q.Raise(slot) else q
    {
      if name == Helius {
        heliusHealth.RecordSuccess(latencyMs, now);
      } else {
        alchemyHealth.RecordSuccess(latencyMs, now);
      }
      if m == GetSlot && slot > highestServedSlot {
        highestServedSlot := slot;
      }
    }

    method FailRead(name: ProviderName)
      requires Valid()
      modifies heliusHealth, alchemyHealth
      ensures View() == old(View()).With(name, old(View()).Of(name).RecordFailure())
    {
      if name == Helius {
        heliusHealth.RecordFailure();
      } else {
        alchemyHealth.RecordFailure();
      }
    }

    method EvaluateAndTransition(now: int)
      requires Valid()
      modifies this, heliusHealth, alchemyHealth
      ensures View() == old(View()).Tick(config, now)
    {
      var heliusSlot, alchemySlot := heliusHealth.lastSeenSlot, alchemyHealth.lastSeenSlot;
      var probedMax := Max(SlotOr0(heliusSlot), SlotOr0(alchemySlot));
      if probedMax > highestServedSlot {
        highestServedSlot := probedMax;
      }
      var _ := heliusHealth.Evaluate(alchemySlot, now);
      var _ := alchemyHealth.Evaluate(heliusSlot, now);
      var newActive := PickProvider(OtherRead);
      if newActive != activeProvider {
        failoverCount := failoverCount + 1;
        activeProvider := newActive;
      }
    }
  }

  // ---------- every interleaving of reads, probes and ticks ----------

  /** A read on its way; what had been served, and how far its provider was, when it was routed. */
  datatype Read = Read(m: Method, provider: ProviderName, servedBefore: nat, providerSlot: nat)

  /** A `getSlot` result handed to a caller. */
  datatype Served = Served(slot: nat, provider: ProviderName)

  datatype What =
    | Issue(m: Method)
    | Answer(id: nat, slot: nat, latencyMs: int)
    | Fail(id: nat)
    | TickStarts
    | ProbeOk(tick: nat, name: ProviderName, slot: nat, latencyMs: int)
    | ProbeFailed(tick: nat, name: ProviderName)
    | Evaluates(tick: nat)

  datatype Action = Action(now: int, what: What)

  /**
   The pool, the reads and the health ticks on their way (of a tick, the probes it still
   awaits), and the history: what was served, every slot the mark took in (those served, and
   both last seen slots at each evaluation), and what was recorded about each provider.
   */
  datatype World = World(
    pool: Pool, pending: map<nat, Read>, nextId: nat, ticks: map<nat, set<ProviderName>>, nextTick: nat,
    served: seq<Served>, noted: seq<nat>, heliusOps: seq<R.Op>, alchemyOps: seq<R.Op>)
  {
    function OpsOf(name: ProviderName): seq<R.Op> {
      if name == Helius then heliusOps else alchemyOps
    }

    /** Something recorded about one provider. */
    function Did(c: PoolConfig, name: ProviderName, op: R.Op): World {
      var w := this.(pool := pool.With(name, R.Next(c.health, pool.Of(name), op)));
      if name == Helius then w.(heliusOps := heliusOps + [op]) else w.(alchemyOps := alchemyOps + [op])
    }

    /** That probe of that tick has not come back. */
    predicate Probing(tick: nat, name: ProviderName) {
      tick in ticks && name in ticks[tick]
    }

    function Probed(tick: nat, name: ProviderName): World
      requires Probing(tick, name)
    {
      this.(ticks := ticks[tick := ticks[tick] - {name}])
    }

    /** Both probes of that tick are back: it goes on to evaluate. */
    predicate Settled(tick: nat) {
      tick in ticks && ticks[tick] == {}
    }

    function Evaluated(c: PoolConfig, now: int): World {
      var hs, as_ := pool.helius.lastSeenSlot, pool.alchemy.lastSeenSlot;
      this.(pool := pool.Tick(c, now),
            noted := noted + [SlotOr0(hs), SlotOr0(as_)],
            heliusOps := heliusOps + [R.Evaluated(now, as_)],
            alchemyOps := alchemyOps + [R.Evaluated(now, hs)])
    }
  }

  const NewWorld := World(NewPool, map[], 0, map[], 0, [], [], [], [])

  function Next(c: PoolConfig, w: World, a: Action): World {
    match a.what
    case Issue(m) =>
      var name := w.pool.Route(c, m);
      var r := Read(m, name, |w.served|, SlotOr0(w.pool.Of(name).lastSeenSlot));
      w.(pending := w.pending[w.nextId := r], nextId := w.nextId + 1)
    case Answer(id, slot, latencyMs) =>
      if id !in w.pending then w
      else
        var r := w.pending[id];
        var v := w.(pending := w.pending - {id}).Did(c, r.provider, R.Success(a.now, latencyMs));
        if r.m != GetSlot then v
        else v.(pool := v.pool.Raise(slot), served := w.served + [Served(slot, r.provider)], noted := w.noted + [slot])
    case Fail(id) =>
      if id !in w.pending then w
      else w.(pending := w.pending - {id}).Did(c, w.pending[id].provider, R.Failure(a.now))
    case TickStarts =>
      if c.enabled then w.(ticks := w.ticks[w.nextTick := {Helius, Alchemy}], nextTick := w.nextTick + 1) else w
    case ProbeOk(tick, name, slot, latencyMs) =>
      if !w.Probing(tick, name) then w
      else w.Probed(tick, name).Did(c, name, R.Success(a.now, latencyMs)).Did(c, name, R.Slot(a.now, slot))
    case ProbeFailed(tick, name) =>
      if !w.Probing(tick, name) then w else w.Probed(tick, name).Did(c, name, R.Failure(a.now))
    case Evaluates(tick) =>
      if !w.Settled(tick) then w else w.(ticks := w.ticks - {tick}).Evaluated(c, a.now)
  }

  function Run(c: PoolConfig, actions: seq<Action>): World {
    if actions == [] then NewWorld
    else Next(c, Run(c, actions[..|actions| - 1]), actions[|actions| - 1])
  }

  lemma OneMore(c: PoolConfig, actions: seq<Action>, a: Action)
    ensures Run(c, actions + [a]) == Next(c, Run(c, actions), a)
  {
    assert (actions + [a])[..|actions|] == actions;
  }

  ghost predicate Timed(actions: seq<Action>) {
    forall i, j :: 0 <= i < j < |actions| ==> actions[i].now <= actions[j].now
  }

  // ---------- the high-water mark ----------

  /** The highest of the slots, 0 if there are none. */
  function Highest(slots: seq<nat>): nat {
    if slots == [] then 0 else Max(Highest(slots[..|slots| - 1]), slots[|slots| - 1])
  }

  lemma HighestPush(slots: seq<nat>, slot: nat)
    ensures Highest(slots + [slot]) == Max(Highest(slots), slot)
  {
    assert (slots + [slot])[..|slots|] == slots;
  }

  lemma {:induction false} HighestBounds(slots: seq<nat>, bound: nat)
    ensures Highest(slots) <= bound <==> forall i :: 0 <= i < |slots| ==> slots[i] <= bound
  {
    if slots != [] { HighestBounds(slots[..|slots| - 1], bound); }
  }

  ghost predicate Recorded(c: PoolConfig, w: World) {
    && w.pool.highestServedSlot == Highest(w.noted)
    && w.pool.helius == R.Run(c.health, w.heliusOps)
    && w.pool.alchemy == R.Run(c.health, w.alchemyOps)
  }

  lemma DidRecords(c: PoolConfig, w: World, name: ProviderName, op: R.Op)
    requires Recorded(c, w)
    ensures Recorded(c, w.Did(c, name, op))
  {
    assert (w.OpsOf(name) + [op])[..|w.OpsOf(name)|] == w.OpsOf(name);
  }

  lemma TickRecords(c: PoolConfig, w: World, now: int, v: World)
    requires Recorded(c, w) && v == w.Evaluated(c, now)
    ensures Recorded(c, v)
  {
    var hs, as_ := w.pool.helius.lastSeenSlot, w.pool.alchemy.lastSeenSlot;
    HighestPush(w.noted, SlotOr0(hs));
    HighestPush(w.noted + [SlotOr0(hs)], SlotOr0(as_));
    assert w.noted + [SlotOr0(hs), SlotOr0(as_)] == w.noted + [SlotOr0(hs)] + [SlotOr0(as_)];
    assert (w.heliusOps + [R.Evaluated(now, as_)])[..|w.heliusOps|] == w.heliusOps;
    assert (w.alchemyOps + [R.Evaluated(now, hs)])[..|w.alchemyOps|] == w.alchemyOps;
  }

  lemma AnswerRecords(c: PoolConfig, w: World, now: int, id: nat, slot: nat, latencyMs: int)
    requires Recorded(c, w) && id in w.pending
    ensures Recorded(c, Next(c, w, Action(now, Answer(id, slot, latencyMs))))
  {
    DidRecords(c, w.(pending := w.pending - {id}), w.pending[id].provider, R.Success(now, latencyMs));
    HighestPush(w.noted, slot);
  }

  lemma ProbeRecords(c: PoolConfig, w: World, now: int, tick: nat, name: ProviderName, slot: nat, latencyMs: int)
    requires Recorded(c, w) && w.Probing(tick, name)
    ensures Recorded(c, Next(c, w, Action(now, ProbeOk(tick, name, slot, latencyMs))))
    ensures Recorded(c, Next(c, w, Action(now, ProbeFailed(tick, name))))
  {
    var v := w.Probed(tick, name);
    DidRecords(c, v, name, R.Failure(now));
    DidRecords(c, v, name, R.Success(now, latencyMs));
    DidRecords(c, v.Did(c, name, R.Success(now, latencyMs)), name, R.Slot(now, slot));
  }

  lemma StepRecords(c: PoolConfig, w: World, a: Action)
    requires Recorded(c, w)
    ensures Recorded(c, Next(c, w, a))
  {
    match a.what
    case Issue(m) =>
    case Answer(id, slot, latencyMs) =>
      if id in w.pending { AnswerRecords(c, w, a.now, id, slot, latencyMs); }
    case Fail(id) =>
      if id in w.pending {
        DidRecords(c, w.(pending := w.pending - {id}), w.pending[id].provider, R.Failure(a.now));
      }
    case TickStarts =>
    case ProbeOk(tick, name, slot, latencyMs) =>
      if w.Probing(tick, name) { ProbeRecords(c, w, a.now, tick, name, slot, latencyMs); }
    case ProbeFailed(tick, name) =>
      if w.Probing(tick, name) { ProbeRecords(c, w, a.now, tick, name, 0, 0); }
    case Evaluates(tick) =>
      if w.Settled(tick) { TickRecords(c, w.(ticks := w.ticks - {tick}), a.now, Next(c, w, a)); }
  }

  /** The mark is the highest slot ever served or probed, and each provider is what its own records make it. */
  lemma {:induction false} MarkIsHighest(c: PoolConfig, actions: seq<Action>)
    ensures Recorded(c, Run(c, actions))
  {
    if actions != [] {
      MarkIsHighest(c, actions[..|actions| - 1]);
      StepRecords(c, Run(c, actions[..|actions| - 1]), actions[|actions| - 1]);
    }
  }

  ghost predicate UpTo(ops: seq<R.Op>, t: int) {
    R.Clocked(ops) && forall i :: 0 <= i < |ops| ==> ops[i].now <= t
  }

  lemma OpsPush(ops: seq<R.Op>, op: R.Op, t: int)
    requires UpTo(ops, t) && t <= op.now
    ensures UpTo(ops + [op], op.now)
  {
  }

  lemma DidInOrder(c: PoolConfig, w: World, did: ProviderName, op: R.Op, t: int, name: ProviderName)
    requires UpTo(w.OpsOf(name), t) && t <= op.now
    ensures UpTo(w.Did(c, did, op).OpsOf(name), op.now)
  {
    OpsPush(w.OpsOf(name), op, t);
  }

  lemma StepInOrder(c: PoolConfig, w: World, a: Action, t: int, name: ProviderName)
    requires UpTo(w.OpsOf(name), t) && t <= a.now
    ensures UpTo(Next(c, w, a).OpsOf(name), a.now)
  {
    match a.what
    case Issue(m) =>
    case Answer(id, slot, latencyMs) =>
      if id in w.pending {
        DidInOrder(c, w.(pending := w.pending - {id}), w.pending[id].provider, R.Success(a.now, latencyMs), t, name);
      }
    case Fail(id) =>
      if id in w.pending {
        DidInOrder(c, w.(pending := w.pending - {id}), w.pending[id].provider, R.Failure(a.now), t, name);
      }
    case TickStarts =>
    case ProbeOk(tick, did, slot, latencyMs) =>
      if w.Probing(tick, did) {
        var v := w.Probed(tick, did);
        DidInOrder(c, v, did, R.Success(a.now, latencyMs), t, name);
        DidInOrder(c, v.Did(c, did, R.Success(a.now, latencyMs)), did, R.Slot(a.now, slot), a.now, name);
      }
    case ProbeFailed(tick, did) =>
      if w.Probing(tick, did) { DidInOrder(c, w.Probed(tick, did), did, R.Failure(a.now), t, name); }
    case Evaluates(tick) =>
      if name == Helius { OpsPush(w.heliusOps, R.Evaluated(a.now, w.pool.alchemy.lastSeenSlot), t); }
      else { OpsPush(w.alchemyOps, R.Evaluated(a.now, w.pool.helius.lastSeenSlot), t); }
  }

  lemma {:induction false} OpsInOrder(c: PoolConfig, actions: seq<Action>, t: int, name: ProviderName)
    requires Timed(actions) && forall i :: 0 <= i < |actions| ==> actions[i].now <= t
    ensures UpTo(Run(c, actions).OpsOf(name), t)
  {
    if actions != [] {
      var before, a := actions[..|actions| - 1], actions[|actions| - 1];
      OpsInOrder(c, before, a.now, name);
      StepInOrder(c, Run(c, before), a, a.now, name);
    }
  }

  /** What the records say of one provider: every breach was followed by a lasting good run. */
  ghost predicate HealthyByRecord(c: PoolConfig, ops: seq<R.Op>) {
    R.AllCleared(c.health, R.Evaluations(c.health, ops))
  }

  /**
   Everything served or probed so far is 0, or lies within the slack of the slot Alchemy was
   last seen at.
   */
  ghost predicate AlchemyCovers(c: PoolConfig, w: World) {
    || (forall i :: 0 <= i < |w.noted| ==> w.noted[i] == 0)
    || (forall i :: 0 <= i < |w.noted| ==>
          w.noted[i] <= SlotOr0(w.pool.alchemy.lastSeenSlot) + c.slotFloorSlack)
  }

  /**
   Routing, exactly, on the whole history. A disabled pool sends everything to Helius. Forced
   getProgramAccounts goes to Alchemy when Alchemy is healthy by its record. Any other read goes
   to Alchemy when Helius has a breach on record not followed by a lasting recovery, Alchemy has
   none, and Alchemy's last seen slot covers everything served or probed.
   */
  lemma AlchemyExactly(c: PoolConfig, actions: seq<Action>, m: Method)
    requires Timed(actions)
    ensures var w := Run(c, actions);
            w.pool.Route(c, m) == Alchemy <==>
            && c.enabled && HealthyByRecord(c, w.alchemyOps)
            && (|| (m == GetProgramAccounts && c.forceAlchemyGpa)
                || (!HealthyByRecord(c, w.heliusOps) && AlchemyCovers(c, w)))
  {
    var w := Run(c, actions);
    MarkIsHighest(c, actions);
    var now := if actions == [] then 0 else actions[|actions| - 1].now;
    OpsInOrder(c, actions, now, Helius);
    OpsInOrder(c, actions, now, Alchemy);
    R.HealthyExactly(c.health, w.heliusOps);
    R.HealthyExactly(c.health, w.alchemyOps);
    HighestBounds(w.noted, 0);
    HighestBounds(w.noted, SlotOr0(w.pool.alchemy.lastSeenSlot) + c.slotFloorSlack);
  }

  // ---------- what a caller can see ----------

  /** Everything handed to a caller is at or below the mark. */
  ghost predicate Bounded(served: seq<Served>, n: nat, high: int) {
    n <= |served| && forall i :: 0 <= i < n ==> served[i].slot <= high
  }

  /** An answer of `slot` is within the slack of everything served before the read was routed. */
  ghost predicate WithinSlack(c: PoolConfig, r: Read, served: seq<Served>, slot: nat) {
    Bounded(served, r.servedBefore, slot + c.slotFloorSlack)
  }

  /** Reads routed to Alchemy found it within the slack. */
  ghost predicate ReadsInv(c: PoolConfig, pending: map<nat, Read>, served: seq<Served>) {
    forall id :: id in pending ==>
      && pending[id].servedBefore <= |served|
      && (pending[id].provider == Alchemy && pending[id].m != GetProgramAccounts ==>
            WithinSlack(c, pending[id], served, pending[id].providerSlot))
  }

  ghost predicate Inv(c: PoolConfig, w: World) {
    && Bounded(w.served, |w.served|, w.pool.highestServedSlot)
    && ReadsInv(c, w.pending, w.served)
    && (w.pool.activeProvider == Helius <==> w.pool.failoverCount % 2 == 0)
  }

  lemma ServedOneMore(c: PoolConfig, pending: map<nat, Read>, served: seq<Served>, x: Served)
    requires ReadsInv(c, pending, served)
    ensures ReadsInv(c, pending, served + [x])
  {
    forall id | id in pending && WithinSlack(c, pending[id], served, pending[id].providerSlot)
      ensures WithinSlack(c, pending[id], served + [x], pending[id].providerSlot)
    {
    }
  }

  /** A new read, routed with the floor in view. */
  lemma IssueKeeps(c: PoolConfig, w: World, now: int, m: Method)
    requires Inv(c, w)
    ensures Inv(c, Next(c, w, Action(now, Issue(m))))
  {
    var name := w.pool.Route(c, m);
    var r := Read(m, name, |w.served|, SlotOr0(w.pool.Of(name).lastSeenSlot));
    if name == Alchemy && m != GetProgramAccounts {
      assert w.pool.highestServedSlot <= r.providerSlot + c.slotFloorSlack;
      assert WithinSlack(c, r, w.served, r.providerSlot);
    }
  }

  lemma AnswerKeeps(c: PoolConfig, w: World, now: int, id: nat, slot: nat, latencyMs: int)
    requires Inv(c, w) && id in w.pending
    ensures Inv(c, Next(c, w, Action(now, Answer(id, slot, latencyMs))))
  {
    assert ReadsInv(c, w.pending - {id}, w.served);
    ServedOneMore(c, w.pending - {id}, w.served, Served(slot, w.pending[id].provider));
  }

  /** What is recorded about a provider touches neither the mark nor the routing history. */
  lemma DidKeeps(c: PoolConfig, w: World, name: ProviderName, op: R.Op)
    ensures var v := w.Did(c, name, op);
            && v.pending == w.pending && v.nextId == w.nextId && v.served == w.served
            && v.pool.highestServedSlot == w.pool.highestServedSlot
            && v.pool.activeProvider == w.pool.activeProvider && v.pool.failoverCount == w.pool.failoverCount
  {
  }

  lemma TickKeeps(c: PoolConfig, w: World, now: int)
    requires Inv(c, w)
    ensures Inv(c, w.Evaluated(c, now))
    ensures w.pool.Tick(c, now).highestServedSlot >= w.pool.highestServedSlot
  {
    assert w.pool.Tick(c, now).failoverCount == w.pool.failoverCount
        || (w.pool.Tick(c, now).failoverCount == w.pool.failoverCount + 1
            && w.pool.Tick(c, now).activeProvider != w.pool.activeProvider);
  }

  lemma InvStep(c: PoolConfig, w: World, a: Action)
    requires Inv(c, w)
    ensures Inv(c, Next(c, w, a))
    ensures Next(c, w, a).pool.highestServedSlot >= w.pool.highestServedSlot
  {
    match a.what
    case Issue(m) => IssueKeeps(c, w, a.now, m);
    case Answer(id, slot, latencyMs) => if id in w.pending { AnswerKeeps(c, w, a.now, id, slot, latencyMs); }
    case Fail(id) =>
      if id in w.pending {
        DidKeeps(c, w.(pending := w.pending - {id}), w.pending[id].provider, R.Failure(a.now));
      }
    case TickStarts =>
    case ProbeOk(tick, name, slot, latencyMs) =>
      if w.Probing(tick, name) {
        var v := w.Probed(tick, name);
        DidKeeps(c, v, name, R.Success(a.now, latencyMs));
        DidKeeps(c, v.Did(c, name, R.Success(a.now, latencyMs)), name, R.Slot(a.now, slot));
      }
    case ProbeFailed(tick, name) =>
      if w.Probing(tick, name) { DidKeeps(c, w.Probed(tick, name), name, R.Failure(a.now)); }
    case Evaluates(tick) => TickKeeps(c, w.(ticks := w.ticks - {tick}), a.now);
  }

  lemma {:induction false} RunInv(c: PoolConfig, actions: seq<Action>)
    ensures Inv(c, Run(c, actions))
  {
    if actions != [] {
      RunInv(c, actions[..|actions| - 1]);
      InvStep(c, Run(c, actions[..|actions| - 1]), actions[|actions| - 1]);
    }
  }

  lemma {:induction false} HighWaterNeverFalls(c: PoolConfig, actions: seq<Action>, more: seq<Action>)
    ensures Run(c, actions).pool.highestServedSlot <= Run(c, actions + more).pool.highestServedSlot
    ensures Bounded(Run(c, actions).served, |Run(c, actions).served|, Run(c, actions).pool.highestServedSlot)
  {
    RunInv(c, actions);
    if more == [] {
      assert actions + more == actions;
    } else {
      var front, last := actions + more[..|more| - 1], more[|more| - 1];
      assert actions + more == front + [last];
      HighWaterNeverFalls(c, actions, more[..|more| - 1]);
      RunInv(c, front);
      InvStep(c, Run(c, front), last);
      OneMore(c, front, last);
    }
  }

  /**
   Once the probes of a tick are evaluated, the mark covers both, the active provider is the
   routed one, and a failover was counted exactly when that is another one than before.
   */
  lemma {:induction false} TickCatchesUp(c: PoolConfig, actions: seq<Action>, now: int, tick: nat)
    requires Run(c, actions).Settled(tick)
    ensures var p := Run(c, actions + [Action(now, Evaluates(tick))]).pool;
            && p.highestServedSlot >= SlotOr0(p.helius.lastSeenSlot)
            && p.highestServedSlot >= SlotOr0(p.alchemy.lastSeenSlot)
            && p.activeProvider == p.Route(c, OtherRead)
            && p.failoverCount == Run(c, actions).pool.failoverCount
               + if p.activeProvider == Run(c, actions).pool.activeProvider then 0 else 1
  {
    OneMore(c, actions, Action(now, Evaluates(tick)));
  }

  // ---------- the floor ----------

  /** However the provider answers from its last seen slot on, the caller is within the slack of what it saw. */
  ghost predicate KeepsFloor(c: PoolConfig, r: Read, served: seq<Served>) {
    forall slot: nat :: slot >= r.providerSlot ==> WithinSlack(c, r, served, slot)
  }

  /** Read ids are never reused. */
  ghost predicate IdsInv(w: World) {
    forall id :: id in w.pending ==> id < w.nextId
  }

  /** A pending read stays as it was routed, and only more is served. */
  lemma StaysPending(c: PoolConfig, w: World, a: Action, v: World, id: nat)
    requires v == Next(c, w, a) && IdsInv(w)
    ensures IdsInv(v) && v.nextId >= w.nextId && w.served <= v.served
    ensures id in v.pending && id < w.nextId ==> id in w.pending && v.pending[id] == w.pending[id]
  {
    match a.what
    case Issue(m) =>
    case Answer(done, slot, latencyMs) =>
      if done in w.pending {
        DidKeeps(c, w.(pending := w.pending - {done}), w.pending[done].provider, R.Success(a.now, latencyMs));
      }
    case Fail(done) =>
      if done in w.pending {
        DidKeeps(c, w.(pending := w.pending - {done}), w.pending[done].provider, R.Failure(a.now));
      }
    case TickStarts =>
    case ProbeOk(tick, name, slot, latencyMs) =>
      if w.Probing(tick, name) {
        var u := w.Probed(tick, name);
        DidKeeps(c, u, name, R.Success(a.now, latencyMs));
        DidKeeps(c, u.Did(c, name, R.Success(a.now, latencyMs)), name, R.Slot(a.now, slot));
      }
    case ProbeFailed(tick, name) =>
      if w.Probing(tick, name) { DidKeeps(c, w.Probed(tick, name), name, R.Failure(a.now)); }
    case Evaluates(tick) =>
  }

  lemma {:induction false} IdsRun(c: PoolConfig, actions: seq<Action>)
    ensures IdsInv(Run(c, actions))
  {
    if actions != [] {
      var w := Run(c, actions[..|actions| - 1]);
      IdsRun(c, actions[..|actions| - 1]);
      StaysPending(c, w, actions[|actions| - 1], Run(c, actions), 0);
    }
  }

  lemma {:induction false} PendingSince(c: PoolConfig, actions: seq<Action>, more: seq<Action>, id: nat)
    requires id in Run(c, actions + more).pending && id < Run(c, actions).nextId
    ensures id in Run(c, actions).pending && Run(c, actions + more).pending[id] == Run(c, actions).pending[id]
    ensures Run(c, actions).served <= Run(c, actions + more).served
    decreases |more|
  {
    if more == [] {
      assert actions + more == actions;
    } else {
      var next, rest := actions + [more[0]], more[1..];
      assert actions + more == next + rest;
      OneMore(c, actions, more[0]);
      IdsRun(c, actions);
      StaysPending(c, Run(c, actions), more[0], Run(c, next), id);
      PendingSince(c, next, rest, id);
    }
  }

  /** All that was served lies within the slack of Helius's last seen slot. */
  ghost predicate HeliusCovers(c: PoolConfig, w: World) {
    forall i :: 0 <= i < |w.served| ==> w.served[i].slot <= SlotOr0(w.pool.helius.lastSeenSlot) + c.slotFloorSlack
  }

  lemma FloorAtIssue(c: PoolConfig, w: World, now: int, v: World)
    requires Inv(c, w) && v == Next(c, w, Action(now, Issue(GetSlot)))
    ensures var r := v.pending[w.nextId];
            && r.m == GetSlot && r.provider == w.pool.Route(c, GetSlot)
            && r.servedBefore == |w.served| && v.served == w.served
            && (KeepsFloor(c, r, v.served) <==> r.provider == Alchemy || HeliusCovers(c, w))
  {
    IssueKeeps(c, w, now, GetSlot);
    var r := v.pending[w.nextId];
    assert WithinSlack(c, r, v.served, r.providerSlot) ==> KeepsFloor(c, r, v.served);
    assert KeepsFloor(c, r, v.served) ==> WithinSlack(c, r, v.served, r.providerSlot);
  }

  /**
   When routing keeps the floor, exactly. A `getSlot` is routed after `actions` and still
   awaited after `more`. Whatever its provider answers from its last seen slot on is within
   the slack of all that was served before the read was routed, if and only if at that
   moment it was routed to Alchemy, or Helius's last seen slot covered what was served.
   The code checks that for Alchemy only.
   */
  lemma FloorExactly(c: PoolConfig, actions: seq<Action>, now: int, more: seq<Action>)
    requires Run(c, actions).nextId in Run(c, actions + [Action(now, Issue(GetSlot))] + more).pending
    ensures var w, v := Run(c, actions), Run(c, actions + [Action(now, Issue(GetSlot))] + more);
            var r := v.pending[w.nextId];
            && r.provider == w.pool.Route(c, GetSlot)
            && (KeepsFloor(c, r, v.served) <==> w.pool.Route(c, GetSlot) == Alchemy || HeliusCovers(c, w))
  {
    var w, issue := Run(c, actions), Action(now, Issue(GetSlot));
    var u, v := Run(c, actions + [issue]), Run(c, actions + [issue] + more);
    RunInv(c, actions);
    OneMore(c, actions, issue);
    FloorAtIssue(c, w, now, u);
    PendingSince(c, actions + [issue], more, w.nextId);
    SameFloor(c, v.pending[w.nextId], u.served, v.served);
  }

  lemma SameFloor(c: PoolConfig, r: Read, served: seq<Served>, later: seq<Served>)
    requires served <= later && r.servedBefore <= |served|
    ensures KeepsFloor(c, r, served) <==> KeepsFloor(c, r, later)
  {
    forall slot: nat ensures WithinSlack(c, r, served, slot) <==> WithinSlack(c, r, later, slot) {
      assert forall i :: 0 <= i < r.servedBefore ==> later[i] == served[i];
    }
  }
}
