/**
 N keeper nodes electing one leader through one expiring Redis key.

 A request may be executed at any moment after it was issued, any number of
 times (client retries) or never; a reply may be delivered late, or never; a
 node may also see an error instead. Global time advances arbitrarily.
 */
module LeaseProtocol {
  import opened Prelude
  import opened LeaseNode

  datatype Key = Key(owner: nat, expiry: int)

  datatype Response = Response(node: nat, id: nat, reply: Reply)

  datatype World = World(now: int, key: Option<Key>, nodes: seq<Node>, responses: set<Response>)

  datatype Step =
    | Tick(to: int)
    | Start(n: nat)
    | StopStandby(n: nat)
    | Execute(n: nat, id: nat, alive: bool)
    | Deliver(n: nat, id: nat, reply: Reply)
    | Fire(n: nat, t: nat)

  /** `ex: Math.ceil(ttlMs / 1000)`, back in milliseconds. */
  function SetTtl(ttl: int): (ms: int)
    ensures ttl <= ms < ttl + 1000 && ms % 1000 == 0
  {
    (ttl + 999) / 1000 * 1000
  }

  /**
   Whether Redis sees the key as alive. At the very millisecond of the expiry it
   may see it either way.
   */
  predicate Sees(key: Option<Key>, now: int, alive: bool) {
    match key
    case None => !alive
    case Some(k) => (now < k.expiry ==> alive) && (k.expiry < now ==> !alive)
  }

  predicate Holds(w: World, n: nat) {
    w.key.Some? && w.key.value.owner == n && w.now < w.key.value.expiry
  }

  /** Errors, timeouts and protocol oddities need no Redis execution behind them. */
  predicate Spontaneous(kind: Await, reply: Reply) {
    || reply == Failed
    || (kind == RenewReply && (reply == NullReply || reply == OddReply))
  }

  predicate Enabled(w: World, step: Step) {
    match step
    case Tick(to) => w.now <= to
    case Start(n) => n < |w.nodes| && w.nodes[n].role == Starting && w.nodes[n].sent == [] && !w.nodes[n].stopped
    case StopStandby(n) => n < |w.nodes| && w.nodes[n].role != Leader
    case Execute(n, id, alive) => n < |w.nodes| && id < |w.nodes[n].sent| && Sees(w.key, w.now, alive)
    case Deliver(n, id, reply) =>
      && n < |w.nodes| && id in w.nodes[n].pending && id < |w.nodes[n].sent|
      && (Response(n, id, reply) in w.responses || Spontaneous(w.nodes[n].pending[id], reply))
    case Fire(n, t) =>
      && n < |w.nodes| && t in w.nodes[n].timers
      && (w.nodes[n].timers[t].Watchdog? ==> w.nodes[n].timers[t].due <= w.now)
  }

  /** What Redis does with one request, and what it replies. */
  function RedisRun(key: Option<Key>, now: int, alive: bool, ttl: int, n: nat, op: Op): (Option<Key>, Reply)
    requires Sees(key, now, alive)
  {
    match op
    case SetNx =>
      if alive then (key, SetRefused) else (Some(Key(n, now + SetTtl(ttl))), SetOk)
    case GetKey =>
      (key, Holder(if alive then Some(key.value.owner) else None))
    case RenewEval =>
      if alive && key.value.owner == n then (Some(Key(n, now + ttl)), Renewed) else (key, NotRenewed)
  }

  /**
   What Redis grants: SET NX a key that is not there, the renewal script a key that names its
   caller. The key is then the caller's, for the ttl in whole seconds or for the ttl; nothing
   else changes it, and a GET names the owner.
   */
  lemma RedisExactly(key: Option<Key>, now: int, alive: bool, ttl: int, n: nat, op: Op)
    requires Sees(key, now, alive)
    ensures var (key', reply) := RedisRun(key, now, alive, ttl, n, op);
            && (op == SetNx ==> reply == (if alive then SetRefused else SetOk))
            && (op == RenewEval ==> reply == if alive && key.value.owner == n then Renewed else NotRenewed)
            && (op == GetKey ==> reply == Holder(if alive then Some(key.value.owner) else None))
            && key' == if !Grants(reply) then key
                       else Some(Key(n, now + if op == SetNx then SetTtl(ttl) else ttl))
  {
  }

  function Apply(ttl: int, w: World, step: Step): World
    requires Enabled(w, step)
  {
    match step
    case Tick(to) => w.(now := to)
    case Start(n) => w.(nodes := w.nodes[n := w.nodes[n].Start(w.now)])
    case StopStandby(n) => w.(nodes := w.nodes[n := w.nodes[n].StopStandby()])
    case Execute(n, id, alive) =>
      var (key, reply) := RedisRun(w.key, w.now, alive, ttl, n, w.nodes[n].sent[id].op);
      w.(key := key, responses := w.responses + {Response(n, id, reply)})
    case Deliver(n, id, reply) =>
      w.(nodes := w.nodes[n := w.nodes[n].Resume(ttl, id, reply, w.now)])
    case Fire(n, t) =>
      w.(nodes := w.nodes[n := w.nodes[n].Fire(t, w.now)])
  }

  predicate Init(w: World) {
    && w.responses == {}
    && forall n :: 0 <= n < |w.nodes| ==> w.nodes[n] == IdleNode
  }

  /** A run: the start world and the steps taken from it. */
  ghost predicate IsRun(ttl: int, run: seq<World>, steps: seq<Step>) {
    && |run| == |steps| + 1
    && Init(run[0])
    && forall i :: 0 <= i < |steps| ==> Enabled(run[i], steps[i]) && run[i + 1] == Apply(ttl, run[i], steps[i])
  }

  predicate IsLeader(w: World, n: nat) {
    n < |w.nodes| && w.nodes[n].role == Leader
  }

  /** The node reports itself leader and the lease it believes in is not over. */
  predicate InLease(ttl: int, w: World, n: nat) {
    IsLeader(w, n) && w.nodes[n].HasWatchdog() && w.now < w.nodes[n].LeaseIssuedAt() + ttl
  }

  /** A request issued at `issuedAt` by `n` was granted: until issuedAt + ttl the key is n's. */
  predicate LeaseKept(ttl: int, w: World, n: nat, issuedAt: int) {
    w.now < issuedAt + ttl ==>
      w.key.Some? && w.key.value.owner == n && issuedAt + ttl <= w.key.value.expiry
  }

  predicate Grants(reply: Reply) {
    reply == SetOk || reply == Renewed
  }

  ghost predicate Inv(ttl: int, w: World) {
    && (forall n :: 0 <= n < |w.nodes| ==> w.nodes[n].Wf(ttl, w.now))
    && (forall n, t :: 0 <= n < |w.nodes| && t in w.nodes[n].timers && w.nodes[n].timers[t].Watchdog? ==>
          LeaseKept(ttl, w, n, w.nodes[n].timers[t].issuedAt))
    && (forall r :: r in w.responses ==> r.node < |w.nodes| && r.id < |w.nodes[r.node].sent|)
    && (forall r :: r in w.responses && Grants(r.reply) ==>
          LeaseKept(ttl, w, r.node, w.nodes[r.node].sent[r.id].issuedAt))
  }

  lemma InitInv(ttl: int, w: World)
    requires Init(w)
    ensures Inv(ttl, w)
  {
    forall n | 0 <= n < |w.nodes| ensures w.nodes[n].Wf(ttl, w.now) {
      assert w.nodes[n].PollTicks() == {} && w.nodes[n].ElectionWaits() == {};
    }
  }

  /** Executing a request never takes the key from a node whose granted lease still runs. */
  lemma ExecuteKeepsLease(ttl: int, w: World, n: nat, id: nat, alive: bool, m: nat, issuedAt: int)
    requires ttl > 0 && Enabled(w, Execute(n, id, alive))
    requires issuedAt <= w.now && LeaseKept(ttl, w, m, issuedAt)
    ensures LeaseKept(ttl, Apply(ttl, w, Execute(n, id, alive)), m, issuedAt)
  {
  }

  /** A granting reply is only produced together with the lease it reports. */
  lemma GrantIsLease(ttl: int, w: World, n: nat, id: nat, alive: bool)
    requires ttl > 0 && Enabled(w, Execute(n, id, alive))
    requires w.nodes[n].sent[id].issuedAt <= w.now
    requires Grants(RedisRun(w.key, w.now, alive, ttl, n, w.nodes[n].sent[id].op).1)
    ensures LeaseKept(ttl, Apply(ttl, w, Execute(n, id, alive)), n, w.nodes[n].sent[id].issuedAt)
  {
  }

  lemma ExecuteInv(ttl: int, w: World, n: nat, id: nat, alive: bool)
    requires ttl > 0 && Inv(ttl, w) && Enabled(w, Execute(n, id, alive))
    ensures Inv(ttl, Apply(ttl, w, Execute(n, id, alive)))
  {
    var step := Execute(n, id, alive);
    var v := Apply(ttl, w, step);
    assert w.nodes[n].Wf(ttl, w.now);
    forall m, t | 0 <= m < |v.nodes| && t in v.nodes[m].timers && v.nodes[m].timers[t].Watchdog?
      ensures LeaseKept(ttl, v, m, v.nodes[m].timers[t].issuedAt)
    {
      assert w.nodes[m].Wf(ttl, w.now);
      ExecuteKeepsLease(ttl, w, n, id, alive, m, w.nodes[m].timers[t].issuedAt);
    }
    var reply := RedisRun(w.key, w.now, alive, ttl, n, w.nodes[n].sent[id].op).1;
    forall r | r in v.responses && Grants(r.reply)
      ensures LeaseKept(ttl, v, r.node, v.nodes[r.node].sent[r.id].issuedAt)
    {
      assert w.nodes[r.node].Wf(ttl, w.now);
      if r in w.responses {
        ExecuteKeepsLease(ttl, w, n, id, alive, r.node, w.nodes[r.node].sent[r.id].issuedAt);
      } else {
        GrantIsLease(ttl, w, n, id, alive);
      }
    }
  }

  lemma TickInv(ttl: int, w: World, to: int)
    requires Inv(ttl, w) && w.now <= to
    ensures Inv(ttl, w.(now := to))
  {
    forall n | 0 <= n < |w.nodes| ensures w.nodes[n].Wf(ttl, to) {
      assert w.nodes[n].Wf(ttl, w.now);
    }
  }

  /** Replacing one node by a well-formed successor whose watchdogs are granted leases. */
  lemma NodeStepInv(ttl: int, w: World, n: nat, s: Node)
    requires Inv(ttl, w) && n < |w.nodes| && s.Wf(ttl, w.now)
    requires w.nodes[n].sent <= s.sent
    requires forall t :: t in s.timers && s.timers[t].Watchdog? ==> LeaseKept(ttl, w, n, s.timers[t].issuedAt)
    ensures Inv(ttl, w.(nodes := w.nodes[n := s]))
  {
    var v := w.(nodes := w.nodes[n := s]);
    forall r | r in v.responses && Grants(r.reply)
      ensures LeaseKept(ttl, v, r.node, v.nodes[r.node].sent[r.id].issuedAt)
    {
      assert LeaseKept(ttl, w, r.node, w.nodes[r.node].sent[r.id].issuedAt);
    }
    forall m, t | 0 <= m < |v.nodes| && t in v.nodes[m].timers && v.nodes[m].timers[t].Watchdog?
      ensures LeaseKept(ttl, v, m, v.nodes[m].timers[t].issuedAt)
    {
      if m != n { assert LeaseKept(ttl, w, m, w.nodes[m].timers[t].issuedAt); }
    }
  }

  lemma DeliverInv(ttl: int, w: World, n: nat, id: nat, reply: Reply)
    requires Inv(ttl, w) && Enabled(w, Deliver(n, id, reply))
    ensures Inv(ttl, Apply(ttl, w, Deliver(n, id, reply)))
  {
    var s := w.nodes[n];
    assert s.Wf(ttl, w.now);
    var r := s.Resume(ttl, id, reply, w.now);
    ResumeKeepsWf(s, ttl, id, reply, w.now);
    forall t | t in r.timers && r.timers[t].Watchdog? ensures LeaseKept(ttl, w, n, r.timers[t].issuedAt) {
      WatchdogOrigin(s, ttl, id, reply, w.now, t, r);
      if !(t in s.timers && s.timers[t] == r.timers[t]) {
        assert Response(n, id, reply) in w.responses;
      }
    }
    NodeStepInv(ttl, w, n, r);
  }

  lemma FireInv(ttl: int, w: World, n: nat, t: nat)
    requires Inv(ttl, w) && Enabled(w, Fire(n, t))
    ensures Inv(ttl, Apply(ttl, w, Fire(n, t)))
  {
    var s := w.nodes[n];
    assert s.Wf(ttl, w.now);
    FireKeepsWf(s, ttl, t, w.now);
    NodeStepInv(ttl, w, n, s.Fire(t, w.now));
  }

  /** Every step keeps the invariant. */
  lemma StepInv(ttl: int, w: World, step: Step)
    requires ttl > 0 && Inv(ttl, w) && Enabled(w, step)
    ensures Inv(ttl, Apply(ttl, w, step))
  {
    match step
    case Tick(to) => TickInv(ttl, w, to);
    case Execute(n, id, alive) => ExecuteInv(ttl, w, n, id, alive);
    case Deliver(n, id, reply) => DeliverInv(ttl, w, n, id, reply);
    case Fire(n, t) => FireInv(ttl, w, n, t);
    case Start(n) =>
      StartKeepsWf(w.nodes[n], ttl, w.now);
      NodeStepInv(ttl, w, n, w.nodes[n].Start(w.now));
    case StopStandby(n) =>
      StopKeepsWf(w.nodes[n], ttl, w.now);
      NodeStepInv(ttl, w, n, w.nodes[n].StopStandby());
  }

  lemma {:induction false} RunInv(ttl: int, run: seq<World>, steps: seq<Step>, i: nat)
    requires ttl > 0 && IsRun(ttl, run, steps) && i < |run|
    ensures Inv(ttl, run[i])
  {
    if i == 0 {
      InitInv(ttl, run[0]);
    } else {
      RunInv(ttl, run, steps, i - 1);
      StepInv(ttl, run[i - 1], steps[i - 1]);
    }
  }

  /**
   Lease safety, over every run: a leader inside its lease owns the Redis key,
   and the key does not expire before the lease does.
   */
  lemma LeaderOwnsKey(ttl: int, run: seq<World>, steps: seq<Step>, i: nat, n: nat)
    requires ttl > 0 && IsRun(ttl, run, steps) && i < |run| && InLease(ttl, run[i], n)
    ensures Holds(run[i], n)
    ensures run[i].nodes[n].LeaseIssuedAt() + ttl <= run[i].key.value.expiry
  {
    RunInv(ttl, run, steps, i);
  }

  /** Mutual exclusion, over every run. */
  lemma MutualExclusion(ttl: int, run: seq<World>, steps: seq<Step>, i: nat, n: nat, m: nat)
    requires ttl > 0 && IsRun(ttl, run, steps) && i < |run|
    requires InLease(ttl, run[i], n) && InLease(ttl, run[i], m)
    ensures n == m
  {
    LeaderOwnsKey(ttl, run, steps, i, n);
    LeaderOwnsKey(ttl, run, steps, i, m);
  }

  /**
   The election never wedges, over every run: a node that was started and not
   stopped either awaits its first reply, or is a standby with exactly one poll
   pending, or is a leader whose watchdog is armed for the end of its lease (or
   at once, when the lease was already over on arming).
   */
  lemma ElectionNeverWedges(ttl: int, run: seq<World>, steps: seq<Step>, i: nat, n: nat)
    requires ttl > 0 && IsRun(ttl, run, steps) && i < |run| && n < |run[i].nodes|
    requires !run[i].nodes[n].stopped
    ensures run[i].nodes[n].Moving()
    ensures IsLeader(run[i], n) ==>
              var s := run[i].nodes[n];
              s.HasWatchdog() && s.timers[s.leaseTimer.value].due
                == Max(s.timers[s.leaseTimer.value].armedAt, s.LeaseIssuedAt() + ttl)
  {
    RunInv(ttl, run, steps, i);
    assert run[i].nodes[n].Wf(ttl, run[i].now);
  }
}
