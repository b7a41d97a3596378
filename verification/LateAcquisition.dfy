/**
 How timely an acquisition must be answered for the single-writer guarantee. The
 lease protocol allows a run in which a renewal of an earlier stint, executed late,
 shortens the key of the next acquisition to the bare ttl.
 */
module LateAcquisition {
  import opened Prelude
  import opened LeaseNode
  import opened LeaseProtocol
  import opened SingleWriter

  /** When node 0 first renews, and half of when it renews again. */
  function RenewAt(ttl: int): (x: int)
    requires ttl > 0
    ensures 0 <= x && 2 * x < ttl
  {
    ttl / 3
  }

  /**
   Node 0 is elected and renews twice; both renewals fail in transit, and the second strike
   costs it the role while the scripts are still on their way. Once its key has expired it
   asks again. Redis grants that, then executes the last renewal. The grant is answered
   `delay` later, when node 1 has been elected as well. The node renews at x and 2x, and t
   is the ttl as Redis stores it.
   */
  function LateSchedule(delay: int, t: int, x: int): seq<Step> {
    [Start(0), Execute(0, 0, false), Deliver(0, 0, SetOk),
     Tick(x), Fire(0, 1), Deliver(0, 1, Failed),
     Tick(2 * x), Fire(0, 2), Deliver(0, 2, Failed),
     Tick(t), Fire(0, 3), Execute(0, 3, false), Deliver(0, 3, Holder(None)),
     Execute(0, 4, false), Execute(0, 2, true),
     Tick(t + delay), Start(1), Execute(1, 0, false), Deliver(1, 0, SetOk),
     Deliver(0, 4, SetOk)]
  }

  // ---------- the nodes along the schedule ----------

  /** A node whose first SET NX, issued at t, is unanswered. */
  function Asking(t: int): Node {
    Node(Starting, false, 0, None, None, None, map[], 0, [Request(SetNx, t)], map[0 := AcquireReply])
  }

  /** The same node once its acquisition was confirmed at `now`. */
  function Elected(ttl: int, t: int, now: int): Node {
    Node(Leader, false, 0, Some(1), None, Some(0),
         map[0 := Watchdog(t, now, now + Max(0, ttl - (now - t))), 1 := RenewTick], 2,
         [Request(SetNx, t)], map[])
  }

  /** What node 0 has sent by the end of its first stint, x and 2x being when it renewed. */
  function FirstStint(x: int): seq<Request> {
    [Request(SetNx, 0), Request(RenewEval, x), Request(RenewEval, 2 * x)]
  }

  /** Elected at 0, with its first renewal unanswered. */
  function Renewing(ttl: int, x: int): Node {
    Node(Leader, false, 0, Some(1), None, Some(0), map[0 := Watchdog(0, 0, Max(0, ttl))], 2,
         FirstStint(x)[..2], map[1 := RenewReply])
  }

  function Struck(ttl: int, x: int): Node {
    Node(Leader, false, 1, Some(2), None, Some(0), map[0 := Watchdog(0, 0, Max(0, ttl)), 2 := RenewTick], 3,
         FirstStint(x)[..2], map[])
  }

  function RenewingAgain(ttl: int, x: int): Node {
    Node(Leader, false, 1, Some(2), None, Some(0), map[0 := Watchdog(0, 0, Max(0, ttl))], 3,
         FirstStint(x), map[2 := RenewReply])
  }

  function Demoted(x: int): Node {
    Node(Standby, false, 2, None, Some(3), None, map[3 := PollTick], 4, FirstStint(x), map[])
  }

  function Polling(x: int, t: int): Node {
    Node(Standby, false, 2, None, Some(3), None, map[], 4,
         FirstStint(x) + [Request(GetKey, t)], map[3 := PollGetReply])
  }

  function AskingAgain(x: int, t: int): Node {
    Node(Standby, false, 2, None, Some(3), None, map[], 4,
         FirstStint(x) + [Request(GetKey, t), Request(SetNx, t)], map[4 := PollSetReply])
  }

  /** Confirmed at `now`, when the lease dated from t is over: its watchdog is due at once. */
  function ElectedAgain(x: int, t: int, now: int): Node {
    Node(Leader, false, 0, Some(5), Some(3), Some(4), map[4 := Watchdog(t, now, now), 5 := RenewTick], 6,
         FirstStint(x) + [Request(GetKey, t), Request(SetNx, t)], map[])
  }

  /** Nothing is overdue on a node: its watchdog, if it leads, is due later or was armed just now. */
  predicate Ready(s: Node, now: int) {
    s.role == Leader ==>
      && s.HasWatchdog()
      && var dog := s.timers[s.leaseTimer.value];
         now < dog.due || (now == dog.due && dog.armedAt == now)
  }

  /** A timer of the node runs at `now` and leaves it as v. */
  predicate Runs(s: Node, now: int, t: nat, v: Node) {
    Ready(s, now) && t in s.timers && !s.timers[t].Watchdog? && s.Fire(t, now) == v
  }

  /** The node takes a reply at `now`, any acquisition being answered within `bound`, and is left as v. */
  predicate Hears(ttl: int, bound: int, s: Node, now: int, id: nat, reply: Reply, v: Node) {
    && Ready(s, now) && id in s.pending && id < |s.sent|
    && (reply == SetOk ==> now < s.sent[id].issuedAt + bound)
    && s.Resume(ttl, id, reply, now) == v
  }

  lemma ElectionSteps(ttl: int, bound: int, t: int)
    requires ttl > 0 && bound > 0
    ensures IdleNode.Start(t) == Asking(t)
    ensures Hears(ttl, bound, Asking(t), t, 0, SetOk, Elected(ttl, t, t))
  {
    var q := Asking(t).(pending := map[]);
    assert Asking(t).pending - {0} == map[];
    assert q.Promote(ttl, t, t) == Elected(ttl, t, t);
  }

  lemma FirstRenewal(ttl: int, bound: int, x: int)
    requires 0 <= x < ttl
    ensures Runs(Elected(ttl, 0, 0), x, 1, Renewing(ttl, x))
    ensures Hears(ttl, bound, Renewing(ttl, x), x, 1, Failed, Struck(ttl, x))
  {
    assert Elected(ttl, 0, 0).timers - {1} == Renewing(ttl, x).timers;
    assert Renewing(ttl, x).pending - {1} == map[];
  }

  lemma SecondRenewal(ttl: int, bound: int, x: int)
    requires 0 <= 2 * x < ttl
    ensures Runs(Struck(ttl, x), 2 * x, 2, RenewingAgain(ttl, x))
    ensures Hears(ttl, bound, RenewingAgain(ttl, x), 2 * x, 2, Failed, Demoted(x))
  {
    assert Struck(ttl, x).timers - {2} == RenewingAgain(ttl, x).timers;
    assert FirstStint(x)[..2] + [Request(RenewEval, 2 * x)] == FirstStint(x);
    assert RenewingAgain(ttl, x).pending - {2} == map[];
    assert RenewingAgain(ttl, x).timers - {0} == map[];
  }

  lemma PollSteps(ttl: int, bound: int, x: int, t: int)
    ensures Runs(Demoted(x), t, 3, Polling(x, t))
    ensures Hears(ttl, bound, Polling(x, t), t, 3, Holder(None), AskingAgain(x, t))
  {
    assert Demoted(x).timers - {3} == map[];
    assert Polling(x, t).pending - {3} == map[];
  }

  lemma LateElection(ttl: int, bound: int, x: int, t: int, now: int)
    requires ttl <= now - t < bound
    ensures Hears(ttl, bound, AskingAgain(x, t), now, 4, SetOk, ElectedAgain(x, t, now))
  {
    var q := AskingAgain(x, t).(pending := map[]);
    assert AskingAgain(x, t).pending - {4} == map[];
    assert q.Promote(ttl, t, now) == ElectedAgain(x, t, now);
  }

  // ---------- the worlds along the schedule ----------

  function LateWorld(ttl: int, delay: int, t: int, x: int, i: nat): World
    requires i <= 20
  {
    var end := t + delay;
    var k0, k1, k2, k3 := Some(Key(0, t)), Some(Key(0, t + t)), Some(Key(0, t + ttl)), Some(Key(1, end + t));
    var r0 := {Response(0, 0, SetOk)};
    var r1 := r0 + {Response(0, 3, Holder(None))};
    var r2 := r1 + {Response(0, 4, SetOk)};
    var r3 := r2 + {Response(0, 2, Renewed)};
    var r4 := r3 + {Response(1, 0, SetOk)};
    match i
    case 0 => World(0, None, [IdleNode, IdleNode], {})
    case 1 => World(0, None, [Asking(0), IdleNode], {})
    case 2 => World(0, k0, [Asking(0), IdleNode], r0)
    case 3 => World(0, k0, [Elected(ttl, 0, 0), IdleNode], r0)
    case 4 => World(x, k0, [Elected(ttl, 0, 0), IdleNode], r0)
    case 5 => World(x, k0, [Renewing(ttl, x), IdleNode], r0)
    case 6 => World(x, k0, [Struck(ttl, x), IdleNode], r0)
    case 7 => World(2 * x, k0, [Struck(ttl, x), IdleNode], r0)
    case 8 => World(2 * x, k0, [RenewingAgain(ttl, x), IdleNode], r0)
    case 9 => World(2 * x, k0, [Demoted(x), IdleNode], r0)
    case 10 => World(t, k0, [Demoted(x), IdleNode], r0)
    case 11 => World(t, k0, [Polling(x, t), IdleNode], r0)
    case 12 => World(t, k0, [Polling(x, t), IdleNode], r1)
    case 13 => World(t, k0, [AskingAgain(x, t), IdleNode], r1)
    case 14 => World(t, k1, [AskingAgain(x, t), IdleNode], r2)
    case 15 => World(t, k2, [AskingAgain(x, t), IdleNode], r3)
    case 16 => World(end, k2, [AskingAgain(x, t), IdleNode], r3)
    case 17 => World(end, k2, [AskingAgain(x, t), Asking(end)], r3)
    case 18 => World(end, k3, [AskingAgain(x, t), Asking(end)], r4)
    case 19 => World(end, k3, [AskingAgain(x, t), Elected(ttl, end, end)], r4)
    case _ => World(end, k3, [ElectedAgain(x, t, end), Elected(ttl, end, end)], r4)
  }

  function Locked(w: World): Keeper {
    Keeper(w, [], [])
  }

  predicate Takes(s: Keeper, a: Action, w: World, step: Step) {
    s == Locked(w) && a == Lock(step)
  }

  /** One on-time protocol step, answering any acquisition within `bound`. */
  ghost predicate StepsTo(ttl: int, bound: int, w: World, step: Step, v: World) {
    forall s, a :: Takes(s, a, w, step) ==>
      CanAct(s, a) && OnTime(s, a) && AcquireTimely(bound, s, a) && Act(ttl, s, a) == Locked(v)
  }

  lemma FirstAsks(ttl: int, bound: int, w: World, n: nat, s: Node, v: World)
    requires n < |w.nodes| && w.nodes[n] == IdleNode && s == IdleNode.Start(w.now)
    requires v == w.(nodes := w.nodes[n := s])
    ensures StepsTo(ttl, bound, w, Start(n), v)
  {
  }

  lemma Executes(ttl: int, bound: int, w: World, n: nat, id: nat, alive: bool, key: Option<Key>, reply: Reply,
                 v: World)
    requires n < |w.nodes| && id < |w.nodes[n].sent| && Sees(w.key, w.now, alive)
    requires (key, reply) == RedisRun(w.key, w.now, alive, ttl, n, w.nodes[n].sent[id].op)
    requires v == w.(key := key, responses := w.responses + {Response(n, id, reply)})
    ensures StepsTo(ttl, bound, w, Execute(n, id, alive), v)
  {
  }

  /** One of the two nodes takes a reply, or runs a timer; the other node and Redis are as they were. */
  lemma Delivers(ttl: int, bound: int, w: World, n: nat, s: Node, id: nat, reply: Reply, s': Node, v: World)
    requires n < |w.nodes| == 2 && w.nodes[n] == s && v == w.(nodes := w.nodes[n := s'])
    requires Hears(ttl, bound, s, w.now, id, reply, s') && (Response(n, id, reply) in w.responses || reply == Failed)
    ensures StepsTo(ttl, bound, w, Deliver(n, id, reply), v)
  {
  }

  lemma Fires(ttl: int, bound: int, w: World, n: nat, s: Node, t: nat, s': Node, v: World)
    requires n < |w.nodes| == 2 && w.nodes[n] == s && v == w.(nodes := w.nodes[n := s']) && Runs(s, w.now, t, s')
    ensures StepsTo(ttl, bound, w, Fire(n, t), v)
  {
  }

  lemma Ticks(ttl: int, bound: int, w: World, to: int, v: World)
    requires w.now <= to
    requires forall n :: 0 <= n < |w.nodes| && w.nodes[n].role == Leader && w.nodes[n].HasWatchdog() ==>
               to <= w.nodes[n].timers[w.nodes[n].leaseTimer.value].due
    requires v == w.(now := to)
    ensures StepsTo(ttl, bound, w, Tick(to), v)
  {
  }

  /** Step i of the schedule leads from world i to world i + 1. */
  ghost predicate LateStepOk(ttl: int, delay: int, t: int, x: int, i: nat)
    requires i < 20
  {
    StepsTo(ttl, delay + 1, LateWorld(ttl, delay, t, x, i), LateSchedule(delay, t, x)[i],
            LateWorld(ttl, delay, t, x, i + 1))
  }

  lemma FirstElection(ttl: int, delay: int, t: int, x: int, i: nat)
    requires 0 < ttl <= delay && t == SetTtl(ttl) && i < 3
    ensures LateStepOk(ttl, delay, t, x, i)
  {
    var w, v := LateWorld(ttl, delay, t, x, i), LateWorld(ttl, delay, t, x, i + 1);
    ElectionSteps(ttl, delay + 1, 0);
    if i == 0 { FirstAsks(ttl, delay + 1, w, 0, Asking(0), v); }
    else if i == 1 { Executes(ttl, delay + 1, w, 0, 0, false, Some(Key(0, t)), SetOk, v); }
    else { Delivers(ttl, delay + 1, w, 0, Asking(0), 0, SetOk, Elected(ttl, 0, 0), v); }
  }

  lemma RenewalDue(ttl: int, delay: int, t: int, x: int)
    requires 0 < ttl <= delay && 0 <= 2 * x < ttl
    ensures LateStepOk(ttl, delay, t, x, 3) && LateStepOk(ttl, delay, t, x, 6)
  {
    Ticks(ttl, delay + 1, LateWorld(ttl, delay, t, x, 3), x, LateWorld(ttl, delay, t, x, 4));
    Ticks(ttl, delay + 1, LateWorld(ttl, delay, t, x, 6), 2 * x, LateWorld(ttl, delay, t, x, 7));
  }

  lemma RenewsFirst(ttl: int, delay: int, t: int, x: int)
    requires 0 < ttl <= delay && 0 <= 2 * x < ttl
    ensures LateStepOk(ttl, delay, t, x, 4)
  {
    FirstRenewal(ttl, delay + 1, x);
    Fires(ttl, delay + 1, LateWorld(ttl, delay, t, x, 4), 0, Elected(ttl, 0, 0), 1, Renewing(ttl, x),
          LateWorld(ttl, delay, t, x, 5));
  }

  lemma FirstStrike(ttl: int, delay: int, t: int, x: int)
    requires 0 < ttl <= delay && 0 <= 2 * x < ttl
    ensures LateStepOk(ttl, delay, t, x, 5)
  {
    FirstRenewal(ttl, delay + 1, x);
    Delivers(ttl, delay + 1, LateWorld(ttl, delay, t, x, 5), 0, Renewing(ttl, x), 1, Failed, Struck(ttl, x),
             LateWorld(ttl, delay, t, x, 6));
  }

  lemma RenewsAgain(ttl: int, delay: int, t: int, x: int)
    requires 0 < ttl <= delay && 0 <= 2 * x < ttl
    ensures LateStepOk(ttl, delay, t, x, 7)
  {
    SecondRenewal(ttl, delay + 1, x);
    Fires(ttl, delay + 1, LateWorld(ttl, delay, t, x, 7), 0, Struck(ttl, x), 2, RenewingAgain(ttl, x),
          LateWorld(ttl, delay, t, x, 8));
  }

  lemma SecondStrike(ttl: int, delay: int, t: int, x: int)
    requires 0 < ttl <= delay && 0 <= 2 * x < ttl
    ensures LateStepOk(ttl, delay, t, x, 8)
  {
    SecondRenewal(ttl, delay + 1, x);
    Delivers(ttl, delay + 1, LateWorld(ttl, delay, t, x, 8), 0, RenewingAgain(ttl, x), 2, Failed, Demoted(x),
             LateWorld(ttl, delay, t, x, 9));
  }

  lemma SecondPoll(ttl: int, delay: int, t: int, x: int, i: nat)
    requires 0 < ttl <= delay && 0 <= 2 * x < ttl <= t && 9 <= i < 11
    ensures LateStepOk(ttl, delay, t, x, i)
  {
    var w, v := LateWorld(ttl, delay, t, x, i), LateWorld(ttl, delay, t, x, i + 1);
    PollSteps(ttl, delay + 1, x, t);
    if i == 9 { Ticks(ttl, delay + 1, w, t, v); }
    else { Fires(ttl, delay + 1, w, 0, Demoted(x), 3, Polling(x, t), v); }
  }

  lemma SecondRequest(ttl: int, delay: int, t: int, x: int, i: nat)
    requires 0 < ttl <= delay && 0 <= 2 * x < ttl <= t && 11 <= i < 13
    ensures LateStepOk(ttl, delay, t, x, i)
  {
    var w, v := LateWorld(ttl, delay, t, x, i), LateWorld(ttl, delay, t, x, i + 1);
    PollSteps(ttl, delay + 1, x, t);
    if i == 11 { Executes(ttl, delay + 1, w, 0, 3, false, w.key, Holder(None), v); }
    else { Delivers(ttl, delay + 1, w, 0, Polling(x, t), 3, Holder(None), AskingAgain(x, t), v); }
  }

  lemma GrantShortened(ttl: int, delay: int, t: int, x: int, i: nat)
    requires 0 < ttl <= delay && t == SetTtl(ttl) && 13 <= i < 16
    ensures LateStepOk(ttl, delay, t, x, i)
  {
    var w, v := LateWorld(ttl, delay, t, x, i), LateWorld(ttl, delay, t, x, i + 1);
    if i == 13 { Executes(ttl, delay + 1, w, 0, 4, false, Some(Key(0, t + t)), SetOk, v); }
    else if i == 14 { Executes(ttl, delay + 1, w, 0, 2, true, Some(Key(0, t + ttl)), Renewed, v); }
    else { Ticks(ttl, delay + 1, w, t + delay, v); }
  }

  lemma OtherElected(ttl: int, delay: int, t: int, x: int, i: nat)
    requires 0 < ttl <= delay && t == SetTtl(ttl) && 16 <= i < 18
    ensures LateStepOk(ttl, delay, t, x, i)
  {
    var w, v := LateWorld(ttl, delay, t, x, i), LateWorld(ttl, delay, t, x, i + 1);
    ElectionSteps(ttl, delay + 1, t + delay);
    if i == 16 { FirstAsks(ttl, delay + 1, w, 1, Asking(t + delay), v); }
    else { Executes(ttl, delay + 1, w, 1, 0, false, Some(Key(1, t + delay + t)), SetOk, v); }
  }

  lemma ConfirmsOther(ttl: int, bound: int, first: Node, end: int, w: World, v: World)
    requires 0 < ttl && 0 < bound && w.now == end && Response(1, 0, SetOk) in w.responses
    requires w.nodes == [first, Asking(end)] && v == w.(nodes := [first, Elected(ttl, end, end)])
    ensures StepsTo(ttl, bound, w, Deliver(1, 0, SetOk), v)
  {
    ElectionSteps(ttl, bound, end);
    assert w.nodes[1 := Elected(ttl, end, end)] == v.nodes;
    Delivers(ttl, bound, w, 1, Asking(end), 0, SetOk, Elected(ttl, end, end), v);
  }

  lemma ConfirmsLate(ttl: int, bound: int, x: int, t: int, other: Node, w: World, v: World)
    requires ttl <= w.now - t < bound && Response(0, 4, SetOk) in w.responses
    requires w.nodes == [AskingAgain(x, t), other] && v == w.(nodes := [ElectedAgain(x, t, w.now), other])
    ensures StepsTo(ttl, bound, w, Deliver(0, 4, SetOk), v)
  {
    LateElection(ttl, bound, x, t, w.now);
    assert w.nodes[0 := ElectedAgain(x, t, w.now)] == v.nodes;
    Delivers(ttl, bound, w, 0, AskingAgain(x, t), 4, SetOk, ElectedAgain(x, t, w.now), v);
  }

  lemma OtherConfirmed(ttl: int, delay: int, t: int, x: int)
    requires 0 < ttl <= delay
    ensures LateStepOk(ttl, delay, t, x, 18)
  {
    ConfirmsOther(ttl, delay + 1, AskingAgain(x, t), t + delay, LateWorld(ttl, delay, t, x, 18),
                  LateWorld(ttl, delay, t, x, 19));
  }

  lemma LateConfirmed(ttl: int, delay: int, t: int, x: int)
    requires 0 < ttl <= delay
    ensures LateStepOk(ttl, delay, t, x, 19)
  {
    ConfirmsLate(ttl, delay + 1, x, t, Elected(ttl, t + delay, t + delay), LateWorld(ttl, delay, t, x, 19),
                 LateWorld(ttl, delay, t, x, 20));
  }

  lemma LateStep(ttl: int, delay: int, t: int, x: int, i: nat)
    requires 0 < ttl <= delay && t == SetTtl(ttl) && 0 <= 2 * x < ttl && i < 20
    ensures LateStepOk(ttl, delay, t, x, i)
  {
    if i < 3 { FirstElection(ttl, delay, t, x, i); }
    else if i == 3 || i == 6 { RenewalDue(ttl, delay, t, x); }
    else if i == 4 { RenewsFirst(ttl, delay, t, x); }
    else if i == 5 { FirstStrike(ttl, delay, t, x); }
    else if i == 7 { RenewsAgain(ttl, delay, t, x); }
    else if i == 8 { SecondStrike(ttl, delay, t, x); }
    else if i < 11 { SecondPoll(ttl, delay, t, x, i); }
    else if i < 13 { SecondRequest(ttl, delay, t, x, i); }
    else if i < 16 { GrantShortened(ttl, delay, t, x, i); }
    else if i < 18 { OtherElected(ttl, delay, t, x, i); }
    else if i < 19 { OtherConfirmed(ttl, delay, t, x); }
    else { LateConfirmed(ttl, delay, t, x); }
  }

  // ---------- exactly how timely is timely enough ----------

  lemma LateLaunch(ttl: int, delay: int, t: int, x: int)
    requires 0 < ttl <= delay && t == SetTtl(ttl)
    ensures var s := Locked(LateWorld(ttl, delay, t, x, 20));
            && CanAct(s, Enter(0)) && OnTime(s, Enter(0)) && Act(ttl, s, Enter(0)) == s.(estimating := [0])
            && IsLeader(s.lock, 0) && IsLeader(s.lock, 1) && Holds(s.lock, 1)
            && CanAct(s.(estimating := [0]), Launch(0)) && OnTime(s.(estimating := [0]), Launch(0))
            && Starts(s.(estimating := [0]), Launch(0))
  {
  }

  /**
   The timeliness premise is needed: for every ttl and every reply delay of at least the
   ttl, there is an otherwise on-time run in which both nodes report themselves leader and
   node 0 starts a send while node 1 holds the key.
   */
  lemma LateAcquireBreaksSingleWriter(ttl: int, delay: int)
    returns (run: seq<Keeper>, acts: seq<Action>)
    requires 0 < ttl <= delay
    ensures IsKeeperRun(ttl, run, acts) && |acts| == 22 && acts[21] == Launch(0)
    ensures AllWithin(ttl, delay + 1, run, acts)
    ensures IsLeader(run[21].lock, 0) && IsLeader(run[21].lock, 1)
    ensures Starts(run[21], Launch(0)) && run[21].estimating[0] == 0 && Holds(run[21].lock, 1)
  {
    var t, x := SetTtl(ttl), RenewAt(ttl);
    var schedule := LateSchedule(delay, t, x);
    var locked := seq(20, i requires 0 <= i < 20 => Lock(schedule[i]));
    var last := Locked(LateWorld(ttl, delay, t, x, 20));
    var estimating := last.(estimating := [0]);
    LateLaunch(ttl, delay, t, x);
    acts := locked + [Enter(0), Launch(0)];
    run := seq(21, i requires 0 <= i < 21 => Locked(LateWorld(ttl, delay, t, x, i)))
           + [estimating, Act(ttl, estimating, Launch(0))];
    forall i | 0 <= i < |acts|
      ensures CanAct(run[i], acts[i]) && OnTime(run[i], acts[i]) && AcquireTimely(delay + 1, run[i], acts[i])
      ensures run[i + 1] == Act(ttl, run[i], acts[i])
    {
      if i < 20 {
        LateStep(ttl, delay, t, x, i);
        assert run[i + 1] == Locked(LateWorld(ttl, delay, t, x, i + 1));
        assert Takes(run[i], acts[i], LateWorld(ttl, delay, t, x, i), schedule[i]);
      }
    }
  }

  /** All acquisitions are answered within `bound` of their issue. */
  ghost predicate AllWithin(ttl: int, bound: int, run: seq<Keeper>, acts: seq<Action>)
    requires IsKeeperRun(ttl, run, acts)
  {
    forall i :: 0 <= i < |acts| ==> AcquireTimely(bound, run[i], acts[i])
  }

  /** Every send of every on-time run whose acquisitions are answered within `bound` starts under the key. */
  ghost predicate SafeWithin(ttl: int, bound: int) {
    forall run: seq<Keeper>, acts: seq<Action>, i: nat ::
      IsKeeperRun(ttl, run, acts) && AllWithin(ttl, bound, run, acts) && i < |acts| && Starts(run[i], acts[i]) ==>
        Holds(run[i].lock, run[i].estimating[acts[i].k])
  }

  /** The single-writer guarantee holds exactly when acquisitions are answered within the ttl. */
  lemma SingleWriterExactly(ttl: int, bound: int)
    requires ttl > 0
    ensures SafeWithin(ttl, bound) <==> bound <= ttl
  {
    if bound <= ttl {
      forall run: seq<Keeper>, acts: seq<Action>, i: nat
        | IsKeeperRun(ttl, run, acts) && AllWithin(ttl, bound, run, acts) && i < |acts| && Starts(run[i], acts[i])
        ensures Holds(run[i].lock, run[i].estimating[acts[i].k])
      {
        SendsOnlyUnderTheKey(ttl, run, acts, i);
      }
    } else {
      var run, acts := LateAcquireBreaksSingleWriter(ttl, bound - 1);
      assert Starts(run[21], acts[21]) && !Holds(run[21].lock, 0);
    }
  }
}
