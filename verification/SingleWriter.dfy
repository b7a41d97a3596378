/**
 The lease composed with keeperSend: role is checked on entry, leadership may
 change while the cost estimate is awaited, and role is checked again in the
 same synchronous stretch that starts the send.
 */
module SingleWriter {
  import opened Prelude
  import opened LeaseNode
  import opened LeaseProtocol

  datatype Send = Send(node: nat, at: int)

  /** `estimating` holds the node of every keeperSend awaiting estimateCost. */
  datatype Keeper = Keeper(lock: World, estimating: seq<nat>, started: seq<Send>)

  datatype Action =
    | Lock(step: Step)
    | Enter(n: nat)
    | Launch(k: nat)

  predicate CanAct(s: Keeper, a: Action) {
    match a
    case Lock(step) => Enabled(s.lock, step)
    case Enter(n) => n < |s.lock.nodes|
    case Launch(k) => k < |s.estimating| && s.estimating[k] < |s.lock.nodes|
  }

  function Act(ttl: int, s: Keeper, a: Action): Keeper
    requires CanAct(s, a)
  {
    match a
    case Lock(step) => s.(lock := Apply(ttl, s.lock, step))
    case Enter(n) => if IsLeader(s.lock, n) then s.(estimating := s.estimating + [n]) else s
    case Launch(k) =>
      var n := s.estimating[k];
      var rest := s.(estimating := s.estimating[..k] + s.estimating[k + 1..]);
      if IsLeader(s.lock, n) then rest.(started := s.started + [Send(n, s.lock.now)]) else rest
  }

  /** A Launch that really starts sendWithRetryKeeper. */
  predicate Starts(s: Keeper, a: Action) {
    a.Launch? && CanAct(s, a) && IsLeader(s.lock, s.estimating[a.k])
  }

  /**
   A node's event loop is not behind on its watchdog: a watchdog armed at an
   earlier millisecond has run once it is due; one armed for "now" in this very
   millisecond may still be queued behind other callbacks.
   */
  predicate Prompt(w: World, n: nat) {
    IsLeader(w, n) ==>
      && w.nodes[n].HasWatchdog()
      && var dog := w.nodes[n].timers[w.nodes[n].leaseTimer.value];
         w.now < dog.due || (w.now == dog.due && dog.armedAt == w.now)
  }

  /** Timers run on time: the clock does not pass a due watchdog, and nothing overtakes it. */
  predicate OnTime(s: Keeper, a: Action)
    requires CanAct(s, a)
  {
    var w := s.lock;
    match a
    case Enter(n) => Prompt(w, n)
    case Launch(k) => Prompt(w, s.estimating[k])
    case Lock(Tick(to)) =>
      forall n :: 0 <= n < |w.nodes| && w.nodes[n].role == Leader && w.nodes[n].HasWatchdog() ==>
        to <= w.nodes[n].timers[w.nodes[n].leaseTimer.value].due
    case Lock(Deliver(n, _, _)) => Prompt(w, n)
    case Lock(Fire(n, t)) => w.nodes[n].timers[t].Watchdog? || Prompt(w, n)
    case Lock(_) => true
  }

  /** A granted acquisition is processed within ttlMs of its issue. */
  predicate AcquireTimely(ttl: int, s: Keeper, a: Action)
    requires CanAct(s, a)
  {
    match a
    case Lock(Deliver(n, id, SetOk)) => s.lock.now < s.lock.nodes[n].sent[id].issuedAt + ttl
    case _ => true
  }

  ghost predicate IsKeeperRun(ttl: int, run: seq<Keeper>, acts: seq<Action>) {
    && |run| == |acts| + 1
    && Init(run[0].lock) && run[0].estimating == [] && run[0].started == []
    && forall i :: 0 <= i < |acts| ==>
         CanAct(run[i], acts[i]) && OnTime(run[i], acts[i]) && run[i + 1] == Act(ttl, run[i], acts[i])
  }

  ghost predicate AllTimely(ttl: int, run: seq<Keeper>, acts: seq<Action>)
    requires IsKeeperRun(ttl, run, acts)
  {
    forall i :: 0 <= i < |acts| ==> AcquireTimely(ttl, run[i], acts[i])
  }

  ghost predicate WriterInv(ttl: int, w: World) {
    && Inv(ttl, w)
    && forall n :: 0 <= n < |w.nodes| && IsLeader(w, n) && Prompt(w, n) ==> Holds(w, n)
  }

  lemma TickWriter(ttl: int, w: World, to: int)
    requires WriterInv(ttl, w) && w.now <= to
    requires forall n :: 0 <= n < |w.nodes| && w.nodes[n].role == Leader && w.nodes[n].HasWatchdog() ==>
               to <= w.nodes[n].timers[w.nodes[n].leaseTimer.value].due
    ensures WriterInv(ttl, w.(now := to))
  {
    var v := w.(now := to);
    TickInv(ttl, w, to);
    forall n | 0 <= n < |v.nodes| && IsLeader(v, n) && Prompt(v, n) ensures Holds(v, n) {
      assert w.nodes[n].Wf(ttl, w.now);
      if to == w.now { assert v == w; }
      else { assert InLease(ttl, v, n); }
    }
  }

  /** A key that is surely alive stays with its owner while any request executes. */
  lemma ExecuteKeepsHolder(ttl: int, w: World, n: nat, id: nat, alive: bool, m: nat)
    requires ttl > 0 && Enabled(w, Execute(n, id, alive)) && Holds(w, m)
    ensures Holds(Apply(ttl, w, Execute(n, id, alive)), m)
  {
  }

  lemma DeliverWriter(ttl: int, w: World, n: nat, id: nat, reply: Reply)
    requires WriterInv(ttl, w) && Enabled(w, Deliver(n, id, reply)) && Prompt(w, n)
    requires reply == SetOk ==> w.now < w.nodes[n].sent[id].issuedAt + ttl
    requires IsLeader(Apply(ttl, w, Deliver(n, id, reply)), n)
    ensures Holds(w, n)
  {
    assert w.nodes[n].Wf(ttl, w.now);
    if !IsLeader(w, n) {
      BecomesLeader(ttl, w.nodes[n], id, reply, w.now);
      assert Response(n, id, SetOk) in w.responses;
    }
  }

  lemma LockWriter(ttl: int, s: Keeper, step: Step)
    requires ttl > 0 && WriterInv(ttl, s.lock)
    requires CanAct(s, Lock(step)) && OnTime(s, Lock(step)) && AcquireTimely(ttl, s, Lock(step))
    ensures WriterInv(ttl, Apply(ttl, s.lock, step))
  {
    var w := s.lock;
    var v := Apply(ttl, w, step);
    StepInv(ttl, w, step);
    if step.Tick? {
      TickWriter(ttl, w, step.to);
    } else {
      forall n | 0 <= n < |v.nodes| && IsLeader(v, n) && Prompt(v, n) ensures Holds(v, n) {
        assert w.nodes[n].Wf(ttl, w.now);
        match step
        case Execute(m, id, alive) =>
          assert v.nodes == w.nodes && Prompt(w, n);
          ExecuteKeepsHolder(ttl, w, m, id, alive, n);
        case Deliver(m, id, reply) =>
          if m == n { DeliverWriter(ttl, w, n, id, reply); } else { assert Prompt(w, n); }
        case Fire(m, t) =>
          if m == n { FireMakesNoLeader(ttl, w.nodes[n], t, w.now); }
          assert IsLeader(w, n) && Prompt(w, n);
        case Start(m) =>
          assert m != n;
          assert IsLeader(w, n) && Prompt(w, n);
        case StopStandby(m) =>
          assert m != n;
          assert IsLeader(w, n) && Prompt(w, n);
      }
    }
  }

  /** A timer callback makes nobody leader, and a due watchdog leaves none behind. */
  lemma FireMakesNoLeader(ttl: int, s: Node, t: nat, now: int)
    requires s.Wf(ttl, now) && t in s.timers && s.Fire(t, now).role == Leader
    ensures s.role == Leader && !s.timers[t].Watchdog?
  {
  }

  /** Only a granted SET NX makes a leader. */
  lemma BecomesLeader(ttl: int, s: Node, id: nat, reply: Reply, now: int)
    requires s.Wf(ttl, now) && id in s.pending && s.role != Leader
    requires s.Resume(ttl, id, reply, now).role == Leader
    ensures reply == SetOk
  {
  }

  lemma {:induction false} KeeperRunInv(ttl: int, run: seq<Keeper>, acts: seq<Action>, i: nat)
    requires ttl > 0 && IsKeeperRun(ttl, run, acts) && AllTimely(ttl, run, acts) && i < |run|
    ensures WriterInv(ttl, run[i].lock)
  {
    if i == 0 {
      InitInv(ttl, run[0].lock);
    } else {
      KeeperRunInv(ttl, run, acts, i - 1);
      if acts[i - 1].Lock? {
        LockWriter(ttl, run[i - 1], acts[i - 1].step);
      }
    }
  }

  /** Whoever is estimating was leader when it entered. */
  lemma {:induction false} EnteredAsLeader(ttl: int, run: seq<Keeper>, acts: seq<Action>, i: nat, k: nat)
    returns (j: nat)
    requires IsKeeperRun(ttl, run, acts) && i < |run| && k < |run[i].estimating|
    ensures j < i && acts[j] == Enter(run[i].estimating[k]) && IsLeader(run[j].lock, run[i].estimating[k])
  {
    var before := run[i - 1].estimating;
    match acts[i - 1]
    case Lock(_) => j := EnteredAsLeader(ttl, run, acts, i - 1, k);
    case Enter(n) => if k == |before| { j := i - 1; } else { j := EnteredAsLeader(ttl, run, acts, i - 1, k); }
    case Launch(m) => j := EnteredAsLeader(ttl, run, acts, i - 1, if k < m then k else k + 1);
  }

  /**
   Leadership is checked on both sides of the estimate, in every run: an estimate that ends at
   step i was begun by a leader, and starts a send exactly if that node leads again; nothing else
   starts one.
   */
  lemma SendsAreCheckedTwice(ttl: int, run: seq<Keeper>, acts: seq<Action>, i: nat)
    requires IsKeeperRun(ttl, run, acts) && i < |acts|
    ensures acts[i].Launch? ==>
              var n := run[i].estimating[acts[i].k];
              && (exists j :: 0 <= j < i && acts[j] == Enter(n) && IsLeader(run[j].lock, n))
              && run[i + 1].started
                 == run[i].started + (if IsLeader(run[i].lock, n) then [Send(n, run[i].lock.now)] else [])
              && |run[i + 1].estimating| == |run[i].estimating| - 1
    ensures !acts[i].Launch? ==> run[i + 1].started == run[i].started
    ensures acts[i].Enter? ==>
              run[i + 1].estimating
              == run[i].estimating + (if IsLeader(run[i].lock, acts[i].n) then [acts[i].n] else [])
  {
    assert run[i].started + [] == run[i].started && run[i].estimating + [] == run[i].estimating;
    if acts[i].Launch? {
      var j := EnteredAsLeader(ttl, run, acts, i, acts[i].k);
      assert acts[j] == Enter(run[i].estimating[acts[i].k]);
    }
  }

  /**
   Single writer: with on-time watchdogs and timely acquisitions, whenever any
   node starts a send, the Redis key holds that node's identity.
   */
  lemma SendsOnlyUnderTheKey(ttl: int, run: seq<Keeper>, acts: seq<Action>, i: nat)
    requires ttl > 0 && IsKeeperRun(ttl, run, acts) && AllTimely(ttl, run, acts)
    requires i < |acts| && Starts(run[i], acts[i])
    ensures Holds(run[i].lock, run[i].estimating[acts[i].k])
    ensures run[i + 1].started == run[i].started + [Send(run[i].lock.key.value.owner, run[i].lock.now)]
  {
    KeeperRunInv(ttl, run, acts, i);
  }
}
