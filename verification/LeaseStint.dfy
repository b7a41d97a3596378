/** What each role does next, and what a leader's watchdog and strikes say about the replies it has had. */
module LeaseStint {
  import opened Prelude
  import opened LeaseNode
  import opened LeaseProtocol

  // ---------- one stretch of one node ----------

  /** A granted renewal extends the lease: the watchdog is dated from the issue of that renewal. */
  lemma GrantedRenewalExtends(s: Node, ttl: int, id: nat, now: int)
    requires s.Wf(ttl, now) && s.role == Leader && id in s.pending
    ensures var r := s.Resume(ttl, id, Renewed, now);
            && r.role == Leader && r.HasWatchdog() && r.LeaseIssuedAt() == s.sent[id].issuedAt
            && r.timers[r.leaseTimer.value].due == Max(now, s.sent[id].issuedAt + ttl)
            && (s.leaseTimer != r.leaseTimer && s.leaseTimer.value !in r.timers)
  {
    LeaderAwaitsRenewals(s, ttl, id, now);
  }

  lemma LeaderAwaitsRenewals(s: Node, ttl: int, id: nat, now: int)
    requires s.Wf(ttl, now) && s.role == Leader && id in s.pending
    ensures s.pending[id] == RenewReply
  {
    assert id !in s.ElectionWaits();
  }

  /** A node becomes leader exactly when its SET NX is confirmed while it is still a candidate. */
  lemma BecomesLeaderExactly(s: Node, ttl: int, id: nat, reply: Reply, now: int)
    requires s.Wf(ttl, now) && s.role != Leader && id in s.pending
    ensures s.Resume(ttl, id, reply, now).role == Leader <==>
            !s.stopped && reply == SetOk && (s.pending[id] == AcquireReply || s.pending[id] == PollSetReply)
  {
    if !s.stopped && s.pending[id] == PollSetReply { assert id in s.ElectionWaits(); }
  }

  /** Of the timers only the watchdog ends a leadership, and none begins one. */
  lemma OnlyTheWatchdogDemotes(s: Node, ttl: int, t: nat, now: int)
    requires s.Wf(ttl, now) && t in s.timers
    ensures s.Fire(t, now).role == Leader <==> s.role == Leader && !s.timers[t].Watchdog?
  {
  }

  /** What a timer sends: a leader renews, a standby looks at the key, and nothing else is sent. */
  lemma TimersSend(s: Node, t: nat, now: int)
    requires t in s.timers
    ensures s.Fire(t, now).sent == s.sent +
            (if s.stopped then []
             else match (s.timers[t], s.role)
                  case (RenewTick, Leader) => [Request(RenewEval, now)]
                  case (PollTick, Standby) => [Request(GetKey, now)]
                  case _ => [])
  {
    assert s.sent + [] == s.sent;
  }

  /** What a reply makes a node send: a standby that finds the key free tries to take it. */
  lemma RepliesSend(s: Node, ttl: int, id: nat, reply: Reply, now: int)
    requires s.Bounded(now) && id in s.pending
    ensures s.Resume(ttl, id, reply, now).sent == s.sent +
            (if !s.stopped && s.role == Standby && s.pending[id] == PollGetReply && reply == Holder(None)
             then [Request(SetNx, now)] else [])
  {
    assert s.sent + [] == s.sent;
  }

  /** A stopped node stays stopped and sends nothing more. */
  lemma StoppedIsSilent(s: Node, ttl: int, id: nat, reply: Reply, t: nat, now: int)
    requires s.Wf(ttl, now) && s.stopped
    ensures t in s.timers ==> s.Fire(t, now).stopped && s.Fire(t, now).sent == s.sent
    ensures id in s.pending ==> s.Resume(ttl, id, reply, now).stopped && s.Resume(ttl, id, reply, now).sent == s.sent
    ensures id in s.pending ==> s.Resume(ttl, id, reply, now).role != Leader
  {
  }

  /** The timers whose handles the lock holds. */
  ghost predicate Held(s: Node, t: nat) {
    s.renewTimer == Some(t) || s.pollTimer == Some(t) || s.leaseTimer == Some(t)
  }

  /** Stopping clears exactly the timers the lock holds; so does losing the role, which arms one poll. */
  lemma HeldTimersAreCleared(s: Node, now: int)
    requires s.Bounded(now)
    ensures var r := s.StopStandby();
            && (forall t :: t in r.timers <==> t in s.timers && !Held(s, t)) && forall t :: !Held(r, t)
    ensures s.role == Leader ==>
              var r := s.Demote();
              && (forall t :: t in r.timers <==> t == s.nextTimer || (t in s.timers && !Held(s, t)))
              && r.timers[s.nextTimer] == PollTick && forall t :: Held(r, t) <==> t == s.nextTimer
  {
  }

  // ---------- every run ----------

  /** The continuation that a request is answered to. */
  predicate Answers(kind: Await, op: Op) {
    match op
    case SetNx => kind == AcquireReply || kind == PollSetReply
    case GetKey => kind == PollGetReply
    case RenewEval => kind == RenewReply
  }

  ghost predicate Fitting(s: Node) {
    forall id :: id in s.pending ==> id < |s.sent| && Answers(s.pending[id], s.sent[id].op)
  }

  lemma FireFits(s: Node, t: nat, now: int)
    requires Fitting(s) && t in s.timers
    ensures Fitting(s.Fire(t, now))
  {
  }

  lemma ResumeFits(s: Node, ttl: int, id: nat, reply: Reply, now: int)
    requires Fitting(s) && id in s.pending && id < |s.sent|
    ensures Fitting(s.Resume(ttl, id, reply, now))
  {
    var q, r := s.(pending := s.pending - {id}), s.Resume(ttl, id, reply, now);
    assert Fitting(q);
    if s.pending[id] == PollGetReply && reply == Holder(None) && !s.stopped && s.role == Standby {
      assert r == q.Issue(SetNx, PollSetReply, now);
    } else {
      assert r.sent == q.sent && r.pending == q.pending;
    }
  }

  /** Over every run, each awaited reply is that of a request of the awaiting kind. */
  lemma {:induction false} RepliesFitRequests(ttl: int, run: seq<World>, steps: seq<Step>, i: nat, n: nat)
    requires IsRun(ttl, run, steps) && i < |run| && n < |run[i].nodes|
    ensures Fitting(run[i].nodes[n])
  {
    if i > 0 {
      RepliesFitRequests(ttl, run, steps, i - 1, n);
      var w := run[i - 1];
      match steps[i - 1]
      case Deliver(m, id, reply) => if m == n { ResumeFits(w.nodes[n], ttl, id, reply, w.now); }
      case Fire(m, t) => if m == n { FireFits(w.nodes[n], t, w.now); }
      case _ =>
    }
  }

  /**
   A stint as leader: when the request it was last granted was issued, when it heard of that,
   and how many renewals have failed since.
   */
  datatype Stint = Stint(issuedAt: int, heardAt: int, strikes: nat)

  /** The reply that confirms a request of this kind. */
  predicate Confirms(kind: Await, reply: Reply) {
    if kind == RenewReply then reply == Renewed else reply == SetOk
  }

  /** What a reply to a node that leads once it has heard it makes of the stint. */
  function Heard(before: Option<Stint>, s: Node, id: nat, reply: Reply, now: int): Option<Stint>
    requires id in s.pending && id < |s.sent|
  {
    if Confirms(s.pending[id], reply) then Some(Stint(s.sent[id].issuedAt, now, 0))
    else if before.None? then None
    else Some(before.value.(strikes := before.value.strikes + 1))
  }

  /** The stint node n is in after i steps, read off the replies delivered to it. */
  ghost function StintAt(ttl: int, run: seq<World>, steps: seq<Step>, i: nat, n: nat): Option<Stint>
    requires IsRun(ttl, run, steps) && i < |run|
  {
    if i == 0 || !IsLeader(run[i], n) then None
    else
      var before := StintAt(ttl, run, steps, i - 1, n);
      match steps[i - 1]
      case Deliver(m, id, reply) =>
        if m != n then before else Heard(before, run[i - 1].nodes[n], id, reply, run[i - 1].now)
      case _ => before
  }

  /** What the fields of a leader say about its stint. */
  ghost predicate Shows(ttl: int, s: Node, stint: Option<Stint>) {
    s.role == Leader ==>
      && s.HasWatchdog() && stint.Some? && s.renewFailures <= 1
      && var dog := s.timers[s.leaseTimer.value];
         && stint.value == Stint(dog.issuedAt, dog.armedAt, s.renewFailures)
         && dog.due == Max(stint.value.heardAt, stint.value.issuedAt + ttl)
  }

  /** A reply to node s, and what it makes of the stint. */
  lemma ReplyShows(s: Node, ttl: int, id: nat, reply: Reply, now: int, before: Option<Stint>, r: Node)
    requires s.Wf(ttl, now) && id in s.pending && Shows(ttl, s, before) && r == s.Resume(ttl, id, reply, now)
    requires r.role == Leader
    ensures Shows(ttl, r, Heard(before, s, id, reply, now))
  {
    if s.role == Leader {
      LeaderAwaitsRenewals(s, ttl, id, now);
    } else {
      BecomesLeaderExactly(s, ttl, id, reply, now);
    }
  }

  lemma TimerShows(s: Node, ttl: int, t: nat, now: int, stint: Option<Stint>)
    requires s.Wf(ttl, now) && t in s.timers && Shows(ttl, s, stint)
    ensures Shows(ttl, s.Fire(t, now), stint)
  {
  }

  /**
   Over every run: a leader's watchdog is armed for the lease of the request last granted to it
   in this stint, dated from its issue and due when that lease ends, or at once if it had ended
   when the grant was heard; and its strikes are the renewals that failed since, at most one.
   */
  lemma {:induction false} WatchdogIsOfTheLastGrant(ttl: int, run: seq<World>, steps: seq<Step>, i: nat, n: nat)
    requires ttl > 0 && IsRun(ttl, run, steps) && i < |run| && n < |run[i].nodes|
    ensures Shows(ttl, run[i].nodes[n], StintAt(ttl, run, steps, i, n))
  {
    if i > 0 && IsLeader(run[i], n) {
      var w := run[i - 1];
      WatchdogIsOfTheLastGrant(ttl, run, steps, i - 1, n);
      RunInv(ttl, run, steps, i - 1);
      assert w.nodes[n].Wf(ttl, w.now);
      var before := StintAt(ttl, run, steps, i - 1, n);
      match steps[i - 1]
      case Deliver(m, id, reply) =>
        if m == n { ReplyShows(w.nodes[n], ttl, id, reply, w.now, before, run[i].nodes[n]); }
      case Fire(m, t) => if m == n { TimerShows(w.nodes[n], ttl, t, w.now, before); }
      case _ =>
    }
  }
}
