/** A leader never stops renewing, and exactly when a renewal costs it the role. */
module Renewal {
  import opened LeaseNode
  import opened LeaseProtocol

  ghost predicate TickPending(s: Node) {
    exists t :: t in s.timers && s.timers[t] == RenewTick
  }

  ghost predicate ReplyAwaited(s: Node) {
    exists id :: id in s.pending && s.pending[id] == RenewReply
  }

  /** A leader has at most one strike, and a renewal is due or on its way. */
  ghost predicate Renewing(s: Node) {
    s.role == Leader ==> s.renewFailures <= 1 && (TickPending(s) || ReplyAwaited(s))
  }

  lemma ScheduledIsPending(s: Node)
    ensures TickPending(s.ScheduleRenew())
  {
    assert s.ScheduleRenew().timers[s.nextTimer] == RenewTick;
  }

  lemma PromotedRenews(s: Node, ttl: int, issuedAt: int, now: int)
    requires Renewing(s)
    ensures Renewing(s.Promote(ttl, issuedAt, now))
  {
    ScheduledIsPending(s.(role := Leader, renewFailures := 0).ArmWatchdog(ttl, issuedAt, now));
  }

  lemma FireKeepsRenewing(s: Node, ttl: int, t: nat, now: int)
    requires s.Wf(ttl, now) && Renewing(s) && t in s.timers
    ensures Renewing(s.Fire(t, now))
  {
    var n := s.Fire(t, now);
    if n.role == Leader {
      if s.timers[t] == RenewTick {
        assert n.pending[|s.sent|] == RenewReply;
      } else if TickPending(s) {
        var u :| u in s.timers && s.timers[u] == RenewTick;
        assert n.timers[u] == RenewTick;
      } else {
        var id :| id in s.pending && s.pending[id] == RenewReply;
        assert n.pending[id] == RenewReply;
      }
    }
  }

  /** A leader loses the role to a renewal reply exactly on a lost lease, or on a second strike. */
  lemma RenewReplyDemotesExactly(s: Node, ttl: int, id: nat, reply: Reply, now: int)
    requires s.Wf(ttl, now) && s.role == Leader && id in s.pending && s.pending[id] == RenewReply
    ensures s.Resume(ttl, id, reply, now).role != Leader <==>
            reply == NotRenewed || reply == NullReply || (reply != Renewed && s.renewFailures >= 1)
    ensures s.Resume(ttl, id, reply, now).role == Leader ==>
            s.Resume(ttl, id, reply, now).renewFailures == (if reply == Renewed then 0 else s.renewFailures + 1)
  {
  }

  lemma ResumeKeepsRenewing(s: Node, ttl: int, id: nat, reply: Reply, now: int)
    requires s.Wf(ttl, now) && Renewing(s) && id in s.pending
    ensures Renewing(s.Resume(ttl, id, reply, now))
  {
    var q := s.(pending := s.pending - {id});
    var issuedAt := s.sent[id].issuedAt;
    if s.pending[id] == RenewReply {
      if s.role == Leader {
        RenewReplyDemotesExactly(s, ttl, id, reply, now);
        if reply == Renewed {
          ScheduledIsPending(q.(renewFailures := 0).ArmWatchdog(ttl, issuedAt, now));
        } else {
          ScheduledIsPending(q.(renewFailures := q.renewFailures + 1));
        }
      }
    } else {
      assert s.role == Leader ==> id in s.ElectionWaits();
      assert Renewing(q);
      PromotedRenews(q, ttl, issuedAt, now);
    }
  }

  /** Over every run: whoever is leader has a renewal scheduled or under way, whatever became of earlier ones. */
  lemma {:induction false} RenewalNeverStops(ttl: int, run: seq<World>, steps: seq<Step>, i: nat, n: nat)
    requires ttl > 0 && IsRun(ttl, run, steps) && i < |run| && n < |run[i].nodes|
    ensures Renewing(run[i].nodes[n])
  {
    if i > 0 {
      var w, step := run[i - 1], steps[i - 1];
      RenewalNeverStops(ttl, run, steps, i - 1, n);
      RunInv(ttl, run, steps, i - 1);
      assert w.nodes[n].Wf(ttl, w.now);
      match step
      case Deliver(m, id, reply) => if m == n { ResumeKeepsRenewing(w.nodes[n], ttl, id, reply, w.now); }
      case Fire(m, t) => if m == n { FireKeepsRenewing(w.nodes[n], ttl, t, w.now); }
      case _ =>
    }
  }
}
