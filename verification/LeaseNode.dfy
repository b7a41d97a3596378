/**
 One node of the leader election: the fields of `LeaderLock` together with the
 part of the event loop that belongs to it (armed timers, awaited requests).

 Every function below is one synchronous stretch of the lock's code, from one
 await or timer callback to the next. The class in LeaderLock.dfy performs the
 same stretches by assignment; LeaseProtocol.dfy interleaves them.
 */
module LeaseNode {
  import opened Prelude

  datatype Role = Starting | Standby | Leader

  /** A pending setTimeout. The watchdog remembers what it was armed for. */
  datatype TimerKind =
    | RenewTick
    | PollTick
    | Watchdog(issuedAt: int, armedAt: int, due: int)

  datatype Op = SetNx | GetKey | RenewEval

  datatype Request = Request(op: Op, issuedAt: int)

  /** The continuation that is waiting for a Redis reply. */
  datatype Await = AcquireReply | PollGetReply | PollSetReply | RenewReply

  datatype Reply =
    | SetOk
    | SetRefused
    | Holder(owner: Option<nat>)
    | Renewed          // 1
    | NotRenewed       // 0
    | NullReply
    | OddReply         // any other value
    | Failed           // a thrown transport error or a renew timeout

  function Without(timers: map<nat, TimerKind>, handle: Option<nat>): map<nat, TimerKind> {
    if handle.Some? then timers - {handle.value} else timers
  }

  datatype Node = Node(
    role: Role,
    stopped: bool,
    renewFailures: nat,
    renewTimer: Option<nat>,
    pollTimer: Option<nat>,
    leaseTimer: Option<nat>,
    timers: map<nat, TimerKind>,
    nextTimer: nat,
    sent: seq<Request>,
    pending: map<nat, Await>)
  {
    function ArmWatchdog(ttl: int, issuedAt: int, now: int): Node {
      var remaining := Max(0, ttl - (now - issuedAt));
      this.(timers := Without(timers, leaseTimer)[nextTimer := Watchdog(issuedAt, now, now + remaining)],
            leaseTimer := Some(nextTimer), nextTimer := nextTimer + 1)
    }

    function ScheduleRenew(): Node {
      this.(timers := timers[nextTimer := RenewTick], renewTimer := Some(nextTimer), nextTimer := nextTimer + 1)
    }

    function SchedulePoll(): Node {
      this.(timers := timers[nextTimer := PollTick], pollTimer := Some(nextTimer), nextTimer := nextTimer + 1)
    }

    function Promote(ttl: int, issuedAt: int, now: int): Node {
      if stopped then this
      else this.(role := Leader, renewFailures := 0).ArmWatchdog(ttl, issuedAt, now).ScheduleRenew()
    }

    function EnterStandby(): Node {
      if stopped then this else this.(role := Standby).SchedulePoll()
    }

    function ClearTimers(): Node {
      this.(timers := Without(Without(Without(timers, renewTimer), pollTimer), leaseTimer),
            renewTimer := None, pollTimer := None, leaseTimer := None)
    }

    function Demote(): Node {
      if role != Leader then this else this.(role := Standby).ClearTimers().SchedulePoll()
    }

    /** Issue a request and suspend on its reply; the request's id is its place in `sent`. */
    function Issue(op: Op, kind: Await, now: int): Node {
      this.(sent := sent + [Request(op, now)], pending := pending[|sent| := kind])
    }

    function Start(now: int): Node {
      Issue(SetNx, AcquireReply, now)
    }

    /** `stop()` of a node that is not the leader. */
    function StopStandby(): Node {
      this.(stopped := true).ClearTimers().(role := Standby)
    }

    /** A timer callback, up to its first await. */
    function Fire(t: nat, now: int): Node
      requires t in timers
    {
      var s := this.(timers := timers - {t});
      match timers[t]
      case RenewTick => if stopped || role != Leader then s else s.Issue(RenewEval, RenewReply, now)
      case PollTick => if stopped || role != Standby then s else s.Issue(GetKey, PollGetReply, now)
      case Watchdog(_, _, _) => if stopped || role != Leader then s else s.Demote()
    }

    /** One more renew strike: the second one demotes. */
    function Strike(): Node {
      var s := this.(renewFailures := renewFailures + 1);
      if s.renewFailures >= 2 then s.Demote() else s.ScheduleRenew()
    }

    function OnRenewReply(ttl: int, issuedAt: int, reply: Reply, now: int): Node {
      if stopped || role != Leader then this
      else
        match reply
        case Renewed => this.(renewFailures := 0).ArmWatchdog(ttl, issuedAt, now).ScheduleRenew()
        case NotRenewed => Demote()
        case NullReply => Demote()
        case _ => Strike()
    }

    function OnPollGetReply(reply: Reply, now: int): Node {
      if reply == Failed then (if stopped then this else SchedulePoll())
      else if stopped || role != Standby then this
      else if reply == Holder(None) then Issue(SetNx, PollSetReply, now)
      else SchedulePoll()
    }

    function OnPollSetReply(ttl: int, issuedAt: int, reply: Reply, now: int): Node {
      if reply == Failed then (if stopped then this else SchedulePoll())
      else if stopped || role != Standby then this
      else if reply == SetOk then Promote(ttl, issuedAt, now)
      else SchedulePoll()
    }

    function OnAcquireReply(ttl: int, issuedAt: int, reply: Reply, now: int): Node {
      if reply == SetOk then Promote(ttl, issuedAt, now) else EnterStandby()
    }

    /** The continuation of request `id`, up to its next await. */
    function Resume(ttl: int, id: nat, reply: Reply, now: int): Node
      requires id in pending && id < |sent|
    {
      var s := this.(pending := pending - {id});
      var issuedAt := sent[id].issuedAt;
      match pending[id]
      case AcquireReply => s.OnAcquireReply(ttl, issuedAt, reply, now)
      case PollGetReply => s.OnPollGetReply(reply, now)
      case PollSetReply => s.OnPollSetReply(ttl, issuedAt, reply, now)
      case RenewReply => s.OnRenewReply(ttl, issuedAt, reply, now)
    }

    predicate HasWatchdog() {
      leaseTimer.Some? && leaseTimer.value in timers && timers[leaseTimer.value].Watchdog?
    }

    /** The issue time the armed watchdog is dated from. */
    function LeaseIssuedAt(): int
      requires HasWatchdog()
    {
      timers[leaseTimer.value].issuedAt
    }

    ghost function PollTicks(): set<nat> {
      set t | t in timers && timers[t].PollTick?
    }

    ghost function ElectionWaits(): set<nat> {
      set id | id in pending && !pending[id].RenewReply?
    }

    /** The election never wedges: what keeps each role moving. */
    ghost predicate Moving() {
      match role
      case Starting =>
        PollTicks() == {} &&
        (if sent == [] then ElectionWaits() == {} else ElectionWaits() == {0} && pending[0] == AcquireReply)
      case Standby =>
        || (exists t :: PollTicks() == {t} && ElectionWaits() == {})
        || (exists id :: PollTicks() == {} && ElectionWaits() == {id} && pending[id] != AcquireReply)
      case Leader => HasWatchdog() && PollTicks() == {} && ElectionWaits() == {}
    }

    ghost predicate WatchdogsSound(ttl: int, now: int) {
      && (role == Leader ==> HasWatchdog())
      && (forall t :: t in timers && timers[t].Watchdog? ==>
            && role == Leader && leaseTimer == Some(t)
            && timers[t].issuedAt <= timers[t].armedAt <= now
            && timers[t].due == Max(timers[t].armedAt, timers[t].issuedAt + ttl))
    }

    ghost predicate Bounded(now: int) {
      && (forall t :: t in timers ==> t < nextTimer)
      && (forall id :: id in pending ==> id < |sent|)
      && (forall i :: 0 <= i < |sent| ==> sent[i].issuedAt <= now)
    }

    ghost predicate Wf(ttl: int, now: int) {
      && Bounded(now)
      && WatchdogsSound(ttl, now)
      && (role == Leader ==> !stopped)
      && (!stopped ==> Moving())
    }
  }

  /** A lock that was constructed but not started. */
  const IdleNode: Node := Node(Starting, false, 0, None, None, None, map[], 0, [], map[])

  lemma StartKeepsWf(s: Node, ttl: int, now: int)
    requires s.Wf(ttl, now) && s.role == Starting && s.sent == [] && !s.stopped
    ensures s.Start(now).Wf(ttl, now)
  {
    var r := s.Start(now);
    assert r.PollTicks() == s.PollTicks();
    assert r.ElectionWaits() == {0};
  }

  lemma StopKeepsWf(s: Node, ttl: int, now: int)
    requires s.Wf(ttl, now) && s.role != Leader
    ensures s.StopStandby().Wf(ttl, now)
  {
  }

  lemma DemoteKeepsWf(s: Node, ttl: int, now: int)
    requires s.Bounded(now) && !s.stopped && s.role == Leader
    requires s.PollTicks() == {} && s.ElectionWaits() == {}
    requires forall t :: t in s.timers && s.timers[t].Watchdog? ==> s.leaseTimer == Some(t)
    ensures s.Demote().Wf(ttl, now)
  {
    var r := s.Demote();
    assert r.PollTicks() == {s.nextTimer} by {
      assert forall t :: t in r.timers && t != s.nextTimer ==> t in s.timers && s.timers[t] == r.timers[t];
      assert forall t :: t in s.timers ==> t !in s.PollTicks();
    }
    assert r.ElectionWaits() == s.ElectionWaits();
  }

  lemma PromoteKeepsWf(s: Node, ttl: int, issuedAt: int, now: int)
    requires s.Bounded(now) && !s.stopped && issuedAt <= now
    requires s.PollTicks() == {} && s.ElectionWaits() == {}
    requires forall t :: t in s.timers && s.timers[t].Watchdog? ==> s.leaseTimer == Some(t)
    ensures s.Promote(ttl, issuedAt, now).Wf(ttl, now)
    ensures s.Promote(ttl, issuedAt, now).LeaseIssuedAt() == issuedAt
  {
    var r := s.Promote(ttl, issuedAt, now);
    assert forall t :: t in s.timers ==> t !in s.PollTicks();
    assert r.PollTicks() == {};
    assert r.ElectionWaits() == s.ElectionWaits();
  }

  lemma RearmKeepsWf(s: Node, ttl: int, issuedAt: int, now: int)
    requires s.Wf(ttl, now) && s.role == Leader && issuedAt <= now
    ensures s.(renewFailures := 0).ArmWatchdog(ttl, issuedAt, now).ScheduleRenew().Wf(ttl, now)
  {
    assert s.(renewFailures := 0).ArmWatchdog(ttl, issuedAt, now).ScheduleRenew()
        == s.Promote(ttl, issuedAt, now);
    PromoteKeepsWf(s, ttl, issuedAt, now);
  }

  lemma SchedulePollKeepsWf(s: Node, ttl: int, now: int)
    requires s.Bounded(now) && s.WatchdogsSound(ttl, now) && s.role == Standby
    requires s.PollTicks() == {} && s.ElectionWaits() == {}
    ensures s.SchedulePoll().Wf(ttl, now)
  {
    var r := s.SchedulePoll();
    assert forall t :: t in s.timers ==> t !in s.PollTicks();
    assert r.PollTicks() == {s.nextTimer};
    assert r.ElectionWaits() == s.ElectionWaits();
  }

  lemma FireKeepsWf(s: Node, ttl: int, t: nat, now: int)
    requires s.Wf(ttl, now) && t in s.timers
    ensures s.Fire(t, now).Wf(ttl, now)
  {
    var r := s.Fire(t, now);
    var q := s.(timers := s.timers - {t});
    assert q.ElectionWaits() == s.ElectionWaits();
    match s.timers[t]
    case RenewTick =>
      assert q.PollTicks() == s.PollTicks();
      assert r.PollTicks() == q.PollTicks();
      assert r.ElectionWaits() == q.ElectionWaits();
    case PollTick =>
      assert t in s.PollTicks();
      if !s.stopped {
        assert s.role == Standby && s.PollTicks() == {t};
        assert r.PollTicks() == {};
        assert s.ElectionWaits() == {};
        assert forall id :: id in s.pending ==> id !in s.ElectionWaits();
        assert r.ElectionWaits() == {|s.sent|};
        assert r.pending[|s.sent|] == PollGetReply;
      }
    case Watchdog(_, _, _) =>
      assert q.PollTicks() == s.PollTicks();
      if !s.stopped { DemoteKeepsWf(q, ttl, now); }
  }

  lemma ResumeKeepsWf(s: Node, ttl: int, id: nat, reply: Reply, now: int)
    requires s.Wf(ttl, now) && id in s.pending
    ensures s.Resume(ttl, id, reply, now).Wf(ttl, now)
  {
    var r := s.Resume(ttl, id, reply, now);
    var q := s.(pending := s.pending - {id});
    assert q.PollTicks() == s.PollTicks();
    assert q.ElectionWaits() == s.ElectionWaits() - {id};
    var issuedAt := s.sent[id].issuedAt;
    if s.pending[id].RenewReply? {
      if !s.stopped && s.role == Leader {
        assert q.Wf(ttl, now);
        match reply
        case Renewed => RearmKeepsWf(q, ttl, issuedAt, now);
        case NotRenewed => DemoteKeepsWf(q, ttl, now);
        case NullReply => DemoteKeepsWf(q, ttl, now);
        case _ => StrikeKeepsWf(q, ttl, now);
      }
    } else {
      assert id in s.ElectionWaits();
      if !s.stopped {
        assert q.ElectionWaits() == {} && q.PollTicks() == {};
        ElectionReplyKeepsWf(s, ttl, id, reply, now);
      }
    }
  }

  lemma StrikeKeepsWf(s: Node, ttl: int, now: int)
    requires s.Wf(ttl, now) && s.role == Leader
    ensures s.Strike().Wf(ttl, now)
  {
    var q := s.(renewFailures := s.renewFailures + 1);
    assert q.PollTicks() == s.PollTicks() && q.ElectionWaits() == s.ElectionWaits();
    if q.renewFailures >= 2 {
      DemoteKeepsWf(q, ttl, now);
    } else {
      var r := q.ScheduleRenew();
      assert forall t :: t in s.timers ==> t !in s.PollTicks();
      assert r.PollTicks() == {};
      assert r.ElectionWaits() == s.ElectionWaits();
    }
  }

  lemma ElectionReplyKeepsWf(s: Node, ttl: int, id: nat, reply: Reply, now: int)
    requires s.Wf(ttl, now) && id in s.pending && !s.pending[id].RenewReply? && !s.stopped
    requires s.(pending := s.pending - {id}).ElectionWaits() == {} && s.PollTicks() == {}
    ensures s.Resume(ttl, id, reply, now).Wf(ttl, now)
  {
    var q := s.(pending := s.pending - {id});
    var issuedAt := s.sent[id].issuedAt;
    assert id in s.ElectionWaits();
    assert q.PollTicks() == s.PollTicks();
    assert s.role != Leader;
    match s.pending[id]
    case AcquireReply =>
      if reply == SetOk { PromoteKeepsWf(q, ttl, issuedAt, now); }
      else {
        var p := q.(role := Standby);
        assert p.PollTicks() == q.PollTicks() && p.ElectionWaits() == q.ElectionWaits();
        SchedulePollKeepsWf(p, ttl, now);
      }
    case PollGetReply =>
      if reply == Holder(None) {
        var r := q.Issue(SetNx, PollSetReply, now);
        assert forall i :: i in q.pending ==> i !in q.ElectionWaits();
        assert r.ElectionWaits() == {|q.sent|};
        assert r.PollTicks() == {};
      } else { SchedulePollKeepsWf(q, ttl, now); }
    case PollSetReply =>
      if reply == SetOk { PromoteKeepsWf(q, ttl, issuedAt, now); }
      else { SchedulePollKeepsWf(q, ttl, now); }
  }

  /** Where a watchdog comes from: it was armed before, or this reply confirmed its request. */
  lemma WatchdogOrigin(s: Node, ttl: int, id: nat, reply: Reply, now: int, t: nat, r: Node)
    requires s.Bounded(now) && id in s.pending && r == s.Resume(ttl, id, reply, now)
    requires t in r.timers && r.timers[t].Watchdog?
    ensures || (t in s.timers && s.timers[t] == r.timers[t])
            || (&& (reply == SetOk || reply == Renewed)
                && r.timers[t].issuedAt == s.sent[id].issuedAt && r.timers[t].armedAt == now)
  {
    var q, issuedAt := s.(pending := s.pending - {id}), s.sent[id].issuedAt;
    match s.pending[id]
    case RenewReply => if reply == Renewed { ArmedOrigin(q.(renewFailures := 0), ttl, issuedAt, now, t); }
    case PollGetReply =>
    case PollSetReply => ArmedOrigin(q.(role := Leader, renewFailures := 0), ttl, issuedAt, now, t);
    case AcquireReply => ArmedOrigin(q.(role := Leader, renewFailures := 0), ttl, issuedAt, now, t);
  }

  lemma ArmedOrigin(s: Node, ttl: int, issuedAt: int, now: int, t: nat)
    ensures var r := s.ArmWatchdog(ttl, issuedAt, now).ScheduleRenew();
            t in r.timers && r.timers[t].Watchdog? ==>
              || (t in s.timers && s.timers[t] == r.timers[t])
              || (r.timers[t].issuedAt == issuedAt && r.timers[t].armedAt == now)
  {
  }
}
