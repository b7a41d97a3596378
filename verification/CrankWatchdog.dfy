/** The crank interval: one cycle at a time, and a watchdog that only gives up on a hung one. */
module CrankWatchdog {
  import opened Prelude

  const PER_PROGRAM_DISCOVERY_BUDGET_MS := 240_000
  const WATCHDOG_GRACE_MS := 30_000

  datatype Config = Config(intervalMs: int, programs: nat)
  {
    function MaxCycleMs(): int {
      Max(intervalMs * 10, 4 * 60_000)
    }

    /** Discovery walks the programs one by one and gets its own budget. */
    function Budget(discovering: bool): int {
      if discovering then Max(MaxCycleMs(), Max(1, programs) * PER_PROGRAM_DISCOVERY_BUDGET_MS) else MaxCycleMs()
    }
  }

  datatype Outcome = Began | Watching | Armed | Exit

  datatype Crank = Crank(cycling: bool, cycleStartedAt: int, watchdogArmedAt: int, discovering: bool)
  {
    function Look(c: Config, now: int): Outcome {
      if !cycling then Began
      else if now - cycleStartedAt <= c.Budget(discovering) then Watching
      else if watchdogArmedAt == 0 then Armed
      else if now - watchdogArmedAt > WATCHDOG_GRACE_MS then Exit
      else Watching
    }

    /** A cycle that needs neither discovery nor a crank pass is over at once. */
    function Begin(needsDiscovery: bool, hasMarkets: bool, now: int): Crank {
      Crank(needsDiscovery || hasMarkets, now, 0, needsDiscovery)
    }

    function Tick(c: Config, needsDiscovery: bool, hasMarkets: bool, now: int): Crank {
      match Look(c, now)
      case Began => Begin(needsDiscovery, hasMarkets, now)
      case Armed => this.(watchdogArmedAt := now)
      case Watching => this
      case Exit => this
    }

    /** The discovery await settled; a failure ends the cycle. */
    function Discovered(ok: bool, hasMarkets: bool, now: int): Crank {
      Crank(ok && hasMarkets, now, 0, false)
    }

    /** The crank pass settled, one way or the other. */
    function Finished(): Crank {
      this.(cycling := false, watchdogArmedAt := 0)
    }
  }

  const Idle := Crank(false, 0, 0, false)

  class CrankService {
    const config: Config
    var cycling: bool
    var cycleStartedAt: int
    var watchdogArmedAt: int
    var discovering: bool

    function View(): Crank
      reads this
    {
      Crank(cycling, cycleStartedAt, watchdogArmedAt, discovering)
    }

    constructor (config: Config)
      ensures this.config == config && View() == Idle
    {
      this.config := config;
      cycling, cycleStartedAt, watchdogArmedAt, discovering := false, 0, 0, false;
    }

    /** The interval callback up to its first await. */
    method Tick(needsDiscovery: bool, hasMarkets: bool, now: int) returns (outcome: Outcome)
      modifies this
      ensures outcome == old(View()).Look(config, now)
      ensures View() == old(View()).Tick(config, needsDiscovery, hasMarkets, now)
    {
      if cycling {
        var elapsed := now - cycleStartedAt;
        var maxCycleMs := Max(config.intervalMs * 10, 4 * 60_000);
        var programCount := Max(1, config.programs);
        var budgetMs :=
          if discovering then Max(maxCycleMs, programCount * PER_PROGRAM_DISCOVERY_BUDGET_MS) else maxCycleMs;
        if elapsed > budgetMs {
          if watchdogArmedAt == 0 {
            watchdogArmedAt := now;
            return Armed;
          } else if now - watchdogArmedAt > WATCHDOG_GRACE_MS {
            return Exit;
          }
        }
        return Watching;
      }
      cycling, cycleStartedAt, watchdogArmedAt := true, now, 0;
      discovering := needsDiscovery;
      if !needsDiscovery && !hasMarkets {
        CycleDone();
      }
      return Began;
    }

    /** After `await discover()`, its finally block and, on failure, the cycle's. */
    method DiscoverySettled(ok: bool, hasMarkets: bool, now: int)
      requires cycling
      modifies this
      ensures View() == old(View()).Discovered(ok, hasMarkets, now)
    {
      discovering, cycleStartedAt, watchdogArmedAt := false, now, 0;
      if !ok || !hasMarkets {
        CycleDone();
      }
    }

    /** The finally block of the cycle. */
    method CycleDone()
      modifies this
      ensures View() == old(View()).Finished()
    {
      cycling, watchdogArmedAt := false, 0;
    }
  }

  // ---------- every run of ticks and settling cycles ----------

  datatype Phase = Discovery | CrankPass

  /** A cycle whose callback is still awaiting something. */
  datatype Cycle = Cycle(phase: Phase, since: int)

  /** What was running when a tick came. */
  datatype Seen = Seen(now: int, cycles: map<nat, Cycle>)

  datatype Action =
    | Tick(now: int, needsDiscovery: bool, hasMarkets: bool)
    | DiscoverySettles(now: int, id: nat, ok: bool, hasMarkets: bool)
    | CrankSettles(now: int, id: nat)

  datatype World = World(crank: Crank, cycles: map<nat, Cycle>, nextId: nat, seen: seq<Seen>, exited: bool)

  function PhaseOf(discovering: bool): Phase {
    if discovering then Discovery else CrankPass
  }

  function Next(c: Config, w: World, a: Action): World {
    if w.exited then w
    else match a
      case Tick(now, needsDiscovery, hasMarkets) =>
        var next := w.(crank := w.crank.Tick(c, needsDiscovery, hasMarkets, now),
                       seen := w.seen + [Seen(now, w.cycles)]);
        (match w.crank.Look(c, now)
         case Began =>
           if needsDiscovery || hasMarkets then
             next.(cycles := w.cycles[w.nextId := Cycle(PhaseOf(needsDiscovery), now)], nextId := w.nextId + 1)
           else next
         case Exit => next.(exited := true)
         case Armed => next
         case Watching => next)
      case DiscoverySettles(now, id, ok, hasMarkets) =>
        if id !in w.cycles || w.cycles[id].phase != Discovery then w
        else
          w.(crank := w.crank.Discovered(ok, hasMarkets, now),
             cycles := if ok && hasMarkets then w.cycles[id := Cycle(CrankPass, now)] else w.cycles - {id})
      case CrankSettles(now, id) =>
        if id !in w.cycles || w.cycles[id].phase != CrankPass then w
        else w.(crank := w.crank.Finished(), cycles := w.cycles - {id})
  }

  function Run(c: Config, actions: seq<Action>): World {
    if actions == [] then World(Idle, map[], 0, [], false)
    else Next(c, Run(c, actions[..|actions| - 1]), actions[|actions| - 1])
  }

  /** 0 marks a disarmed watchdog, so the clock must be past it; it never goes back. */
  ghost predicate Timed(actions: seq<Action>) {
    && (forall i :: 0 <= i < |actions| ==> actions[i].now > 0)
    && (forall i, j :: 0 <= i < j < |actions| ==> actions[i].now <= actions[j].now)
  }

  /** The fields describe the cycle that is running, if any, and only one is. */
  ghost predicate OneCycle(k: Crank, cycles: map<nat, Cycle>, nextId: nat) {
    && (k.cycling <==> exists i :: i in cycles)
    && (forall i, j :: i in cycles && j in cycles ==> i == j)
    && (forall i :: i in cycles ==>
          && i < nextId
          && k.cycleStartedAt == cycles[i].since
          && PhaseOf(k.discovering) == cycles[i].phase)
    && (!k.cycling ==> k.watchdogArmedAt == 0)
  }

  /**
   The cycle has been in its phase for more than ten intervals and four minutes, and in
   discovery also for more than four minutes a program.
   */
  predicate Late(c: Config, cycle: Cycle, now: int) {
    var elapsed := now - cycle.since;
    && elapsed > 10 * c.intervalMs && elapsed > 240_000
    && (cycle.phase == Discovery ==> elapsed > c.programs * 240_000)
  }

  /** A tick that found cycle i in this phase, past that phase's budget. */
  predicate Overdue(c: Config, s: Seen, i: nat, phase: Phase) {
    i in s.cycles && s.cycles[i].phase == phase && Late(c, s.cycles[i], s.now)
  }

  /** Past ticks: they saw only known cycles, and a cycle never returns to discovery. */
  ghost predicate PastInv(seen: seq<Seen>, cycles: map<nat, Cycle>, nextId: nat) {
    && (forall n, i :: 0 <= n < |seen| && i in seen[n].cycles ==> i < nextId)
    && (forall n, i :: 0 <= n < |seen| && i in seen[n].cycles && i in cycles && cycles[i].phase == Discovery ==>
          seen[n].cycles[i].phase == Discovery)
  }

  /** The watchdog is armed at the first overdue tick of the running phase. */
  ghost predicate ArmedInv(c: Config, armedAt: int, cycles: map<nat, Cycle>, seen: seq<Seen>) {
    forall i :: i in cycles ==>
      && (armedAt != 0 ==>
            exists n :: 0 <= n < |seen| && Overdue(c, seen[n], i, cycles[i].phase) && seen[n].now == armedAt)
      && (forall n :: 0 <= n < |seen| && Overdue(c, seen[n], i, cycles[i].phase) ==> 0 != armedAt <= seen[n].now)
  }

  ghost predicate Inv(c: Config, w: World) {
    && OneCycle(w.crank, w.cycles, w.nextId)
    && PastInv(w.seen, w.cycles, w.nextId)
    && ArmedInv(c, w.crank.watchdogArmedAt, w.cycles, w.seen)
  }

  lemma BeginKeeps(c: Config, w: World, now: int, needsDiscovery: bool, hasMarkets: bool)
    requires Inv(c, w) && !w.exited && !w.crank.cycling
    ensures Inv(c, Next(c, w, Tick(now, needsDiscovery, hasMarkets)))
  {
    var n := Next(c, w, Tick(now, needsDiscovery, hasMarkets));
    if needsDiscovery || hasMarkets {
      assert w.nextId in n.cycles;
      forall k | 0 <= k < |n.seen| ensures w.nextId !in n.seen[k].cycles {
        if k < |w.seen| { assert n.seen[k] == w.seen[k]; }
      }
    }
  }

  /** A tick during a cycle: arm it, if overdue for the first time. */
  lemma ArmKeeps(c: Config, armedAt: int, cycles: map<nat, Cycle>, seen: seq<Seen>, i: nat, now: int)
    requires ArmedInv(c, armedAt, cycles, seen) && now > 0
    requires forall n :: 0 <= n < |seen| ==> seen[n].now <= now
    requires i in cycles && forall j :: j in cycles ==> i == j
    ensures ArmedInv(c, if armedAt == 0 && Late(c, cycles[i], now) then now
        else armedAt, cycles, seen + [Seen(now, cycles)])
  {
    var longer, last, phase := seen + [Seen(now, cycles)], |seen|, cycles[i].phase;
    assert longer[last] == Seen(now, cycles);
    assert Overdue(c, longer[last], i, phase) <==> Late(c, cycles[i], now);
    forall n | 0 <= n < last ensures Overdue(c, longer[n], i, phase) <==> Overdue(c, seen[n], i, phase) {
      assert longer[n] == seen[n];
    }
    if armedAt != 0 {
      var n :| 0 <= n < |seen| && Overdue(c, seen[n], i, phase) && seen[n].now == armedAt;
      assert longer[n].now == armedAt;
    }
  }

  lemma WatchKeeps(c: Config, w: World, now: int, needsDiscovery: bool, hasMarkets: bool)
    requires Inv(c, w) && !w.exited && w.crank.cycling && now > 0
    requires forall n :: 0 <= n < |w.seen| ==> w.seen[n].now <= now
    ensures Inv(c, Next(c, w, Tick(now, needsDiscovery, hasMarkets)))
  {
    var i :| i in w.cycles;
    ArmKeeps(c, w.crank.watchdogArmedAt, w.cycles, w.seen, i, now);
    PastKeeps(w.seen, w.cycles, w.nextId, now);
    var armedAt := if w.crank.watchdogArmedAt == 0 && Late(c, w.cycles[i], now) then now else w.crank.watchdogArmedAt;
    var n := Next(c, w, Tick(now, needsDiscovery, hasMarkets));
    assert n.crank == w.crank.(watchdogArmedAt := armedAt) && n.cycles == w.cycles && n.nextId == w.nextId;
    assert n.seen == w.seen + [Seen(now, w.cycles)];
  }

  lemma PastKeeps(seen: seq<Seen>, cycles: map<nat, Cycle>, nextId: nat, now: int)
    requires PastInv(seen, cycles, nextId) && forall i :: i in cycles ==> i < nextId
    ensures PastInv(seen + [Seen(now, cycles)], cycles, nextId)
  {
  }

  lemma SettleKeeps(c: Config, w: World, a: Action)
    requires Inv(c, w) && !a.Tick?
    ensures Inv(c, Next(c, w, a))
  {
    var n := Next(c, w, a);
    if n != w {
      assert forall i :: i in w.cycles ==> i == a.id;
      if a.DiscoverySettles? && a.ok && a.hasMarkets {
        assert a.id in n.cycles;
        forall k | 0 <= k < |w.seen| ensures !Overdue(c, w.seen[k], a.id, CrankPass) {
          if a.id in w.seen[k].cycles {
            assert w.seen[k].cycles[a.id].phase == Discovery;
          }
        }
      } else {
        assert n.cycles == map[];
      }
    }
  }

  lemma TickKeeps(c: Config, w: World, now: int, needsDiscovery: bool, hasMarkets: bool)
    requires Inv(c, w) && now > 0 && forall n :: 0 <= n < |w.seen| ==> w.seen[n].now <= now
    ensures Inv(c, Next(c, w, Tick(now, needsDiscovery, hasMarkets)))
  {
    if !w.exited {
      if w.crank.cycling {
        WatchKeeps(c, w, now, needsDiscovery, hasMarkets);
      } else {
        BeginKeeps(c, w, now, needsDiscovery, hasMarkets);
      }
    }
  }

  lemma {:induction false} RunInv(c: Config, actions: seq<Action>)
    requires Timed(actions)
    ensures Inv(c, Run(c, actions))
    ensures forall n :: 0 <= n < |Run(c, actions).seen| ==> Run(c, actions).seen[n].now <= actions[|actions| - 1].now
  {
    if actions != [] {
      var before, a := actions[..|actions| - 1], actions[|actions| - 1];
      RunInv(c, before);
      var w := Run(c, before);
      if a.Tick? { TickKeeps(c, w, a.now, a.needsDiscovery, a.hasMarkets); } else { SettleKeeps(c, w, a); }
    }
  }

  /** No two cycles are ever in progress, and when none is, the watchdog is disarmed. */
  lemma OneCycleAtATime(c: Config, actions: seq<Action>)
    requires Timed(actions)
    ensures var w := Run(c, actions);
            && (forall i, j :: i in w.cycles && j in w.cycles ==> i == j)
            && (w.crank.cycling <==> exists i :: i in w.cycles)
            && (!w.crank.cycling ==> w.crank.watchdogArmedAt == 0)
  {
    RunInv(c, actions);
  }

  /** An earlier tick already found the same phase of the same cycle overdue, more than the grace ago. */
  ghost predicate GraceSpent(c: Config, w: World, i: nat, now: int)
    requires i in w.cycles
  {
    exists n ::
      0 <= n < |w.seen| && Overdue(c, w.seen[n], i, w.cycles[i].phase) && now - w.seen[n].now > 30_000
  }

  /**
   The process gives up exactly at a tick that finds a cycle past the budget of its
   phase when an earlier tick, more than 30 s before, had found the same phase of the
   same cycle past it too.
   */
  lemma ExitsExactly(c: Config, actions: seq<Action>, now: int, needsDiscovery: bool, hasMarkets: bool)
    requires Timed(actions + [Tick(now, needsDiscovery, hasMarkets)]) && !Run(c, actions).exited
    ensures var w := Run(c, actions);
            Run(c, actions + [Tick(now, needsDiscovery, hasMarkets)]).exited <==>
            exists i :: i in w.cycles && Late(c, w.cycles[i], now) && GraceSpent(c, w, i, now)
  {
    var all := actions + [Tick(now, needsDiscovery, hasMarkets)];
    assert all[..|actions|] == actions;
    RunInv(c, actions);
    var w := Run(c, actions);
    if w.crank.Look(c, now) == Exit {
      var i :| i in w.cycles;
      assert GraceSpent(c, w, i, now);
    }
  }

  /** A cycle that settles in time leaves nothing behind: the next tick starts afresh. */
  lemma SettledCycleDisarms(c: Config, actions: seq<Action>, now: int, id: nat, later: int, needsDiscovery: bool,
                            hasMarkets: bool)
    requires Timed(actions) && !Run(c, actions).exited
    requires id in Run(c, actions).cycles && Run(c, actions).cycles[id].phase == CrankPass
    ensures var w := Next(c, Run(c, actions), CrankSettles(now, id));
            && w.cycles == map[] && !w.crank.cycling && w.crank.watchdogArmedAt == 0
            && w.crank.Look(c, later) == Began
            && !Next(c, w, Tick(later, needsDiscovery, hasMarkets)).exited
  {
    RunInv(c, actions);
    var w := Run(c, actions);
    assert forall i :: i in w.cycles ==> i == id;
  }
}
