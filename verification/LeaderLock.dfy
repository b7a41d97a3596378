/**
 `LeaderLock` as the object it is: fields assigned step by step. An async
 method is split at its awaits; each part is proved to perform exactly the
 stretch of LeaseNode that LeaseProtocol interleaves.
 */
module LeaderLock {
  import opened Prelude
  import opened LeaseNode

  datatype Setting = TtlMs | RenewMs | PollMs

  datatype TimingProblem = NotFinitePositive(name: Setting) | RenewNotBelowTtl

  predicate Usable(v: Num) {
    v.Finite? && v.v > 0
  }

  /** Reports the first unusable timing, or renewMs >= ttlMs, or nothing. */
  method ValidateTiming(ttlMs: Num, renewMs: Num, pollMs: Num) returns (problem: Option<TimingProblem>)
    ensures problem.None? <==>
              Usable(ttlMs) && Usable(renewMs) && Usable(pollMs) && renewMs.v < ttlMs.v
    ensures problem == Some(RenewNotBelowTtl) <==>
              Usable(ttlMs) && Usable(renewMs) && Usable(pollMs) && renewMs.v >= ttlMs.v
    ensures problem == Some(NotFinitePositive(TtlMs)) <==> !Usable(ttlMs)
    ensures problem == Some(NotFinitePositive(RenewMs)) <==> Usable(ttlMs) && !Usable(renewMs)
  {
    var checks := [(TtlMs, ttlMs), (RenewMs, renewMs), (PollMs, pollMs)];
    assert checks[0] == (TtlMs, ttlMs) && checks[1] == (RenewMs, renewMs) && checks[2] == (PollMs, pollMs);
    for i := 0 to 3
      invariant forall j :: 0 <= j < i ==> Usable(checks[j].1)
    {
      var (name, value) := checks[i];
      if value.NonFinite? || value.v <= 0 {
        return Some(NotFinitePositive(name));
      }
    }
    if renewMs.v >= ttlMs.v {
      return Some(RenewNotBelowTtl);
    }
    return None;
  }

  class LeaderLock {
    const ttlMs: int

    var role: Role
    var renewTimer: Option<nat>
    var pollTimer: Option<nat>
    var leaseTimer: Option<nat>
    var renewFailures: nat
    var stopped: bool

    // The runtime's share: armed timers, requests issued so far, suspended awaits.
    var timers: map<nat, TimerKind>
    var nextTimer: nat
    var sent: seq<Request>
    var pending: map<nat, Await>

    function View(): Node
      reads this
    {
      Node(role, stopped, renewFailures, renewTimer, pollTimer, leaseTimer, timers, nextTimer, sent, pending)
    }

    constructor (ttlMs: int)
      ensures View() == IdleNode && this.ttlMs == ttlMs
    {
      this.ttlMs := ttlMs;
      role, stopped, renewFailures := Starting, false, 0;
      renewTimer, pollTimer, leaseTimer := None, None, None;
      timers, nextTimer, sent, pending := map[], 0, [], map[];
    }

    /** Construction refuses unusable timings; what it builds has renewMs below ttlMs. */
    static method Create(ttlMs: Num, renewMs: Num, pollMs: Num)
      returns (lock: LeaderLock?, problem: Option<TimingProblem>)
      ensures problem.None? <==>
                Usable(ttlMs) && Usable(renewMs) && Usable(pollMs) && renewMs.v < ttlMs.v
      ensures lock == null <==> problem.Some?
      ensures lock != null ==> fresh(lock) && lock.View() == IdleNode && lock.ttlMs == ttlMs.v > 0
    {
      lock := null;
      problem := ValidateTiming(ttlMs, renewMs, pollMs);
      if problem.None? {
        lock := new LeaderLock(ttlMs.v);
      }
    }

    method SetTimeout(kind: TimerKind) returns (handle: nat)
      modifies `timers, `nextTimer
      ensures handle == old(nextTimer) && nextTimer == handle + 1
      ensures timers == old(timers)[handle := kind]
    {
      handle := nextTimer;
      timers := timers[handle := kind];
      nextTimer := nextTimer + 1;
    }

    method ClearTimeout(handle: Option<nat>)
      modifies `timers
      ensures timers == Without(old(timers), handle)
    {
      if handle.Some? {
        timers := timers - {handle.value};
      }
    }

    method Send(op: Op, kind: Await, now: int)
      modifies `sent, `pending
      ensures View() == old(View()).Issue(op, kind, now)
    {
      pending := pending[|sent| := kind];
      sent := sent + [Request(op, now)];
    }

    method Start(now: int)
      modifies this
      ensures View() == old(View()).(stopped := false).Start(now)
    {
      stopped := false;
      Send(SetNx, AcquireReply, now);
    }

    /** `stop()` in any role but leader: nothing is sent. */
    method Stop()
      requires role != Leader
      modifies this
      ensures View() == old(View()).StopStandby()
    {
      stopped := true;
      ClearTimers();
      role := Standby;
    }

    method ArmLeaseWatchdog(leaseIssuedAt: int, now: int)
      modifies `timers, `nextTimer, `leaseTimer
      ensures View() == old(View()).ArmWatchdog(ttlMs, leaseIssuedAt, now)
    {
      ClearTimeout(leaseTimer);
      var remainingMs := Max(0, ttlMs - (now - leaseIssuedAt));
      var handle := SetTimeout(Watchdog(leaseIssuedAt, now, now + remainingMs));
      leaseTimer := Some(handle);
    }

    method ScheduleRenew()
      modifies `timers, `nextTimer, `renewTimer
      ensures View() == old(View()).ScheduleRenew()
    {
      var handle := SetTimeout(RenewTick);
      renewTimer := Some(handle);
    }

    method SchedulePoll()
      modifies `timers, `nextTimer, `pollTimer
      ensures View() == old(View()).SchedulePoll()
    {
      var handle := SetTimeout(PollTick);
      pollTimer := Some(handle);
    }

    method Promote(leaseIssuedAt: int, now: int)
      modifies this
      ensures View() == old(View()).Promote(ttlMs, leaseIssuedAt, now)
    {
      if stopped { return; }
      role := Leader;
      renewFailures := 0;
      ArmLeaseWatchdog(leaseIssuedAt, now);
      ScheduleRenew();
    }

    method EnterStandby()
      modifies this
      ensures View() == old(View()).EnterStandby()
    {
      if stopped { return; }
      role := Standby;
      SchedulePoll();
    }

    method ClearTimers()
      modifies `timers, `renewTimer, `pollTimer, `leaseTimer
      ensures View() == old(View()).ClearTimers()
    {
      if renewTimer.Some? {
        ClearTimeout(renewTimer);
        renewTimer := None;
      }
      if pollTimer.Some? {
        ClearTimeout(pollTimer);
        pollTimer := None;
      }
      if leaseTimer.Some? {
        ClearTimeout(leaseTimer);
        leaseTimer := None;
      }
    }

    method Demote()
      modifies this
      ensures View() == old(View()).Demote()
    {
      if role != Leader { return; }
      role := Standby;
      ClearTimers();
      SchedulePoll();
    }

    /** The event loop runs an armed timer: renew, poll or watchdog callback. */
    method TimerFired(t: nat, now: int)
      requires t in timers
      modifies this
      ensures View() == old(View()).Fire(t, now)
    {
      var kind := timers[t];
      timers := timers - {t};
      match kind
      case RenewTick =>
        if stopped || role != Leader { return; }
        Send(RenewEval, RenewReply, now);
      case PollTick =>
        if stopped || role != Standby { return; }
        Send(GetKey, PollGetReply, now);
      case Watchdog(_, _, _) =>
        if stopped || role != Leader { return; }
        Demote();
    }

    /** `_renew` after its await; a rejected await is the reply `Failed`. */
    method RenewResumed(issuedAt: int, result: Reply, now: int)
      modifies this
      ensures View() == old(View()).OnRenewReply(ttlMs, issuedAt, result, now)
    {
      if stopped || role != Leader { return; }
      if result == Renewed {
        renewFailures := 0;
        ArmLeaseWatchdog(issuedAt, now);
        ScheduleRenew();
        return;
      }
      if result == NotRenewed || result == NullReply {
        Demote();
        return;
      }
      renewFailures := renewFailures + 1;
      if renewFailures >= 2 {
        Demote();
      } else {
        ScheduleRenew();
      }
    }

    /** `_poll` after its GET. */
    method PollGetResumed(current: Reply, now: int)
      modifies this
      ensures View() == old(View()).OnPollGetReply(current, now)
    {
      if current == Failed {
        if stopped { return; }
        SchedulePoll();
        return;
      }
      if stopped || role != Standby { return; }
      if current == Holder(None) {
        Send(SetNx, PollSetReply, now);
        return;
      }
      SchedulePoll();
    }

    /** `_poll` after its SET NX. */
    method PollSetResumed(acquiredAt: int, result: Reply, now: int)
      modifies this
      ensures View() == old(View()).OnPollSetReply(ttlMs, acquiredAt, result, now)
    {
      if result == Failed {
        if stopped { return; }
        SchedulePoll();
        return;
      }
      if stopped || role != Standby { return; }
      if result == SetOk {
        Promote(acquiredAt, now);
        return;
      }
      SchedulePoll();
    }

    /** `_tryAcquire` after its SET NX. */
    method TryAcquireResumed(acquiredAt: int, result: Reply, now: int)
      modifies this
      ensures View() == old(View()).OnAcquireReply(ttlMs, acquiredAt, result, now)
    {
      if result == SetOk {
        Promote(acquiredAt, now);
      } else {
        EnterStandby();
      }
    }

    /** The reply to request `id` arrives. */
    method Resume(id: nat, reply: Reply, now: int)
      requires id in pending && id < |sent|
      modifies this
      ensures View() == old(View()).Resume(ttlMs, id, reply, now)
    {
      var kind, issuedAt := pending[id], sent[id].issuedAt;
      pending := pending - {id};
      match kind
      case AcquireReply => TryAcquireResumed(issuedAt, reply, now);
      case PollGetReply => PollGetResumed(reply, now);
      case PollSetReply => PollSetResumed(issuedAt, reply, now);
      case RenewReply => RenewResumed(issuedAt, reply, now);
    }
  }
}
