/** The gate both liquidation paths go through before `liquidate()` is called. */
module LiquidationGate {
  import opened Prelude

  datatype Position = V17(slab: string, portfolio: string) | V12(slab: string, accountIdx: nat)

  datatype Source = Polling | Laserstream

  /**
   A per-owner cap as `Number(...)` reads it. `count >= NaN` is false, so a
   malformed value never refuses; Infinity acts the same, -Infinity as 0. A
   fractional cap acts as the next integer.
   */
  datatype Cap = Limit(n: int) | NotANumber

  datatype Backoff = Backoff(failures: nat, retryAfter: int)

  datatype Decision = InFlight | BackingOff | SeenThisCycle | OwnerAtCap | Started

  datatype Outcome = Landed | NoSignature | Threw

  const POSITION_BACKOFF_BASE_MS := 5_000
  const POSITION_BACKOFF_MAX_MS := 60_000

  function Pow2(n: nat): (p: nat)
    ensures p >= 1
  {
    if n == 0 then 1 else 2 * Pow2(n - 1)
  }

  /** The first failure is free; then 5 s doubling up to a minute. */
  function Delay(failures: nat): (ms: nat)
    ensures ms <= POSITION_BACKOFF_MAX_MS
  {
    if failures <= 1 then 0 else Min(POSITION_BACKOFF_BASE_MS * Pow2(failures - 2), POSITION_BACKOFF_MAX_MS)
  }

  function CountOf(counts: map<string, nat>, owner: string): nat {
    if owner in counts then counts[owner] else 0
  }

  predicate AtCap(count: nat, cap: Cap) {
    cap.Limit? && count >= cap.n
  }

  datatype Gate = Gate(
    inFlight: set<Position>, seen: set<Position>,
    ownerCounts: map<string, nat>, eventOwnerCounts: map<string, nat>,
    backoff: map<Position, Backoff>, submitAttempts: nat)
  {
    function Counts(source: Source): map<string, nat> {
      if source == Laserstream then eventOwnerCounts else ownerCounts
    }

    function Decide(cap: Cap, source: Source, p: Position, owner: string, now: int): Decision {
      if p in inFlight then InFlight
      else if p in backoff && now < backoff[p].retryAfter then BackingOff
      else if p in seen then SeenThisCycle
      else if AtCap(CountOf(Counts(source), owner), cap) then OwnerAtCap
      else Started
    }

    function Begin(source: Source, p: Position, owner: string): Gate {
      var counted := CountOf(Counts(source), owner) + 1;
      this.(
        inFlight := inFlight + {p},
        seen := seen + {p},
        ownerCounts := if source == Laserstream then ownerCounts else ownerCounts[owner := counted],
        eventOwnerCounts := if source == Laserstream then eventOwnerCounts[owner := counted] else eventOwnerCounts)
    }

    function Settle(p: Position, attemptsBefore: nat, outcome: Outcome, halted: bool, now: int): Gate {
      var released := this.(inFlight := inFlight - {p});
      match outcome
      case Landed => released.(backoff := backoff - {p})
      case Threw => released
      case NoSignature =>
        if submitAttempts > attemptsBefore && !halted then
          var failures := (if p in backoff then backoff[p].failures else 0) + 1;
          released.(backoff := backoff[p := Backoff(failures, now + Delay(failures))])
        else released
    }

    function ResetCycle(): Gate {
      this.(seen := {}, ownerCounts := map[], eventOwnerCounts := map[])
    }
  }

  const EmptyGate := Gate({}, {}, map[], map[], map[], 0)

  /** The service's fields; each method is one stretch of code between two awaits. */
  class LiquidationService {
    const maxPerOwner: Cap
    const maxPerOwnerEvent: Cap
    var inFlightPositions: set<Position>
    var cycleSeenPositions: set<Position>
    var cycleOwnerCounts: map<string, nat>
    var eventCycleOwnerCounts: map<string, nat>
    var positionBackoff: map<Position, Backoff>
    var submitAttempts: nat

    function View(): Gate
      reads this
    {
      Gate(inFlightPositions, cycleSeenPositions, cycleOwnerCounts, eventCycleOwnerCounts, positionBackoff,
           submitAttempts)
    }

    function CapFor(source: Source): Cap {
      if source == Laserstream then maxPerOwnerEvent else maxPerOwner
    }

    constructor (maxPerOwner: Cap, maxPerOwnerEvent: Cap)
      ensures this.maxPerOwner == maxPerOwner && this.maxPerOwnerEvent == maxPerOwnerEvent
      ensures View() == EmptyGate
    {
      this.maxPerOwner, this.maxPerOwnerEvent := maxPerOwner, maxPerOwnerEvent;
      inFlightPositions, cycleSeenPositions := {}, {};
      cycleOwnerCounts, eventCycleOwnerCounts := map[], map[];
      positionBackoff, submitAttempts := map[], 0;
    }

    /** `gatedLiquidate` up to the await of `liquidate()`. */
    method GatedLiquidateBegin(source: Source, positionKey: Position, owner: string, now: int)
      returns (decision: Decision, attemptsBefore: nat)
      modifies this
      ensures decision == old(View()).Decide(CapFor(source), source, positionKey, owner, now)
      ensures attemptsBefore == old(submitAttempts)
      ensures View() == if decision == Started then old(View()).Begin(source, positionKey, owner) else old(View())
    {
      attemptsBefore := submitAttempts;
      if positionKey in inFlightPositions {
        return InFlight, attemptsBefore;
      }
      if positionKey in positionBackoff && now < positionBackoff[positionKey].retryAfter {
        return BackingOff, attemptsBefore;
      }
      if positionKey in cycleSeenPositions {
        return SeenThisCycle, attemptsBefore;
      }
      var counts := if source == Laserstream then eventCycleOwnerCounts else cycleOwnerCounts;
      var cap := CapFor(source);
      var ownerCount := if owner in counts then counts[owner] else 0;
      if cap.Limit? && ownerCount >= cap.n {
        return OwnerAtCap, attemptsBefore;
      }
      counts := counts[owner := ownerCount + 1];
      if source == Laserstream {
        eventCycleOwnerCounts := counts;
      } else {
        cycleOwnerCounts := counts;
      }
      cycleSeenPositions := cycleSeenPositions + {positionKey};
      inFlightPositions := inFlightPositions + {positionKey};
      return Started, attemptsBefore;
    }

    /** From the settling of `liquidate()` to the end, its finally block included. */
    method GatedLiquidateSettle(positionKey: Position, attemptsBefore: nat, outcome: Outcome, halted: bool, now: int)
      modifies this
      ensures View() == old(View()).Settle(positionKey, attemptsBefore, outcome, halted, now)
    {
      if outcome != Threw {
        var broadcast := submitAttempts > attemptsBefore;
        if outcome == Landed {
          positionBackoff := positionBackoff - {positionKey};
        } else if broadcast && !halted {
          var failures := 1;
          if positionKey in positionBackoff {
            failures := positionBackoff[positionKey].failures + 1;
          }
          var delay := 0;
          if failures > 1 {
            delay := Min(POSITION_BACKOFF_BASE_MS * Pow2(failures - 2), POSITION_BACKOFF_MAX_MS);
          }
          positionBackoff := positionBackoff[positionKey := Backoff(failures, now + delay)];
        }
      }
      inFlightPositions := inFlightPositions - {positionKey};
    }

    /** `liquidate()` on its way to the wire. */
    method CountAttempt()
      modifies this
      ensures View() == old(View()).(submitAttempts := old(submitAttempts) + 1)
    {
      submitAttempts := submitAttempts + 1;
    }

    /** The start of `scanAndLiquidateAll`. */
    method ResetCycle()
      modifies this
      ensures View() == old(View()).ResetCycle()
    {
      cycleSeenPositions := {};
      cycleOwnerCounts := map[];
      eventCycleOwnerCounts := map[];
    }
  }

  // ---------- every interleaving of calls, attempts and resets ----------

  /** One `liquidate()` in progress; how many attempts it and others made since it began. */
  datatype Call = Call(position: Position, owner: string, source: Source, attemptsBefore: nat, own: nat, others: nat)

  datatype Event = Start(position: Position, owner: string, source: Source) | Reset

  datatype Action =
    | Ask(source: Source, position: Position, owner: string)
    | Attempt(id: nat)
    | Finish(id: nat, outcome: Outcome, halted: bool)
    | NewCycle
    | Evict(position: Position)
    | Tick(ms: nat)

  datatype World = World(gate: Gate, calls: map<nat, Call>, nextId: nat, clock: int, history: seq<Event>)

  datatype Caps = Caps(polling: Cap, event: Cap)
  {
    function For(source: Source): Cap {
      if source == Laserstream then event else polling
    }
  }

  function Counted(calls: map<nat, Call>, id: nat): map<nat, Call> {
    map i | i in calls ::
      if i == id then calls[i].(own := calls[i].own + 1) else calls[i].(others := calls[i].others + 1)
  }

  function Next(caps: Caps, w: World, a: Action): World {
    match a
    case Ask(source, p, owner) =>
      if w.gate.Decide(caps.For(source), source, p, owner, w.clock) != Started then w
      else w.(gate := w.gate.Begin(source, p, owner),
              calls := w.calls[w.nextId := Call(p, owner, source, w.gate.submitAttempts, 0, 0)],
              nextId := w.nextId + 1,
              history := w.history + [Start(p, owner, source)])
    case Attempt(id) =>
      if id !in w.calls then w
      else w.(gate := w.gate.(submitAttempts := w.gate.submitAttempts + 1), calls := Counted(w.calls, id))
    case Finish(id, outcome, halted) =>
      if id !in w.calls then w
      else
        var c := w.calls[id];
        w.(gate := w.gate.Settle(c.position, c.attemptsBefore, outcome, halted, w.clock), calls := w.calls - {id})
    case NewCycle => w.(gate := w.gate.ResetCycle(), history := w.history + [Reset])
    case Evict(p) => w.(gate := w.gate.(backoff := w.gate.backoff - {p}))
    case Tick(ms) => w.(clock := w.clock + ms)
  }

  function Run(caps: Caps, actions: seq<Action>, clock: int): World {
    if actions == [] then World(EmptyGate, map[], 0, clock, [])
    else Next(caps, Run(caps, actions[..|actions| - 1], clock), actions[|actions| - 1])
  }

  // ---------- what a history shows ----------

  function PositionStarts(h: seq<Event>, p: Position): nat {
    if h == [] || h[|h| - 1].Reset? then 0
    else PositionStarts(h[..|h| - 1], p) + if h[|h| - 1].position == p then 1 else 0
  }

  function OwnerStarts(h: seq<Event>, source: Source, owner: string): nat {
    if h == [] || h[|h| - 1].Reset? then 0
    else
      var last := h[|h| - 1];
      OwnerStarts(h[..|h| - 1], source, owner) + if last.owner == owner && last.source == source then 1 else 0
  }

  ghost predicate Within(n: nat, cap: Cap) {
    cap.Limit? ==> n <= Max(0, cap.n)
  }

  /** At every moment so far: no position started twice, no owner over its cap. */
  ghost predicate Fair(caps: Caps, h: seq<Event>) {
    && (forall n: nat, p :: n <= |h| ==> PositionStarts(h[..n], p) <= 1)
    && (forall n: nat, source, owner :: n <= |h| ==> Within(OwnerStarts(h[..n], source, owner), caps.For(source)))
  }

  /** Exactly the positions being liquidated are marked in flight, each by one call. */
  ghost predicate CallsInv(g: Gate, calls: map<nat, Call>, nextId: nat) {
    && (forall i :: i in calls ==> i < nextId && calls[i].position in g.inFlight)
    && (forall i, j :: i in calls && j in calls && i != j ==> calls[i].position != calls[j].position)
    && (forall p :: p in g.inFlight ==> exists i :: i in calls && calls[i].position == p)
  }

  ghost predicate AttemptsInv(g: Gate, calls: map<nat, Call>) {
    forall i :: i in calls ==> g.submitAttempts == calls[i].attemptsBefore + calls[i].own + calls[i].others
  }

  ghost predicate CycleInv(g: Gate, h: seq<Event>) {
    && (forall p :: p in g.seen <==> PositionStarts(h, p) > 0)
    && (forall source, owner :: CountOf(g.Counts(source), owner) == OwnerStarts(h, source, owner))
  }

  ghost predicate BackoffInv(g: Gate, clock: int) {
    forall p :: p in g.backoff ==> g.backoff[p].retryAfter <= clock + POSITION_BACKOFF_MAX_MS
  }

  ghost predicate Inv(caps: Caps, w: World) {
    && CallsInv(w.gate, w.calls, w.nextId)
    && AttemptsInv(w.gate, w.calls)
    && CycleInv(w.gate, w.history)
    && BackoffInv(w.gate, w.clock)
    && Fair(caps, w.history)
  }

  lemma CallBegins(g: Gate, calls: map<nat, Call>, id: nat, c: Call, g': Gate)
    requires CallsInv(g, calls, id) && AttemptsInv(g, calls)
    requires c.position !in g.inFlight && g'.inFlight == g.inFlight + {c.position}
    requires g'.submitAttempts == g.submitAttempts == c.attemptsBefore && c.own == c.others == 0
    ensures CallsInv(g', calls[id := c], id + 1) && AttemptsInv(g', calls[id := c])
  {
    var calls' := calls[id := c];
    forall q | q in g'.inFlight ensures exists i :: i in calls' && calls'[i].position == q {
      if q == c.position {
        assert calls'[id].position == q;
      } else {
        var i :| i in calls && calls[i].position == q;
        assert calls'[i].position == q;
      }
    }
  }

  lemma CallAttempts(g: Gate, calls: map<nat, Call>, nextId: nat, id: nat, g': Gate)
    requires CallsInv(g, calls, nextId) && g'.inFlight == g.inFlight
    ensures CallsInv(g', Counted(calls, id), nextId)
  {
    var calls' := Counted(calls, id);
    assert calls'.Keys == calls.Keys;
    forall i | i in calls ensures calls'[i].position == calls[i].position {
    }
    forall q | q in g'.inFlight ensures exists i :: i in calls' && calls'[i].position == q {
      var i :| i in calls && calls[i].position == q;
      assert i in calls';
    }
  }

  lemma SameCalls(g: Gate, calls: map<nat, Call>, nextId: nat, g': Gate)
    requires CallsInv(g, calls, nextId) && AttemptsInv(g, calls)
    requires g'.inFlight == g.inFlight && g'.submitAttempts == g.submitAttempts
    ensures CallsInv(g', calls, nextId) && AttemptsInv(g', calls)
  {
  }

  lemma SameCycle(g: Gate, h: seq<Event>, g': Gate)
    requires CycleInv(g, h)
    requires g'.seen == g.seen && g'.ownerCounts == g.ownerCounts && g'.eventOwnerCounts == g.eventOwnerCounts
    ensures CycleInv(g', h)
  {
    forall source, owner ensures CountOf(g'.Counts(source), owner) == OwnerStarts(h, source, owner) {
      assert g'.Counts(source) == g.Counts(source);
    }
  }

  lemma AttemptsCounted(g: Gate, calls: map<nat, Call>, id: nat)
    requires AttemptsInv(g, calls)
    ensures AttemptsInv(g.(submitAttempts := g.submitAttempts + 1), Counted(calls, id))
  {
  }

  lemma CallEnds(g: Gate, calls: map<nat, Call>, nextId: nat, id: nat, g': Gate)
    requires CallsInv(g, calls, nextId) && AttemptsInv(g, calls) && id in calls
    requires g'.inFlight == g.inFlight - {calls[id].position} && g'.submitAttempts == g.submitAttempts
    ensures CallsInv(g', calls - {id}, nextId) && AttemptsInv(g', calls - {id})
  {
    var calls' := calls - {id};
    forall q | q in g'.inFlight ensures exists i :: i in calls' && calls'[i].position == q {
      var i :| i in calls && calls[i].position == q;
      assert i in calls';
    }
  }

  lemma CycleStep(g: Gate, h: seq<Event>, source: Source, p: Position, owner: string)
    requires CycleInv(g, h)
    ensures CycleInv(g.Begin(source, p, owner), h + [Start(p, owner, source)])
    ensures CycleInv(g.ResetCycle(), h + [Reset])
  {
    assert (h + [Start(p, owner, source)])[..|h|] == h;
    assert (h + [Reset])[..|h|] == h;
  }

  /** A moment added to a fair history. */
  lemma FairGrows(caps: Caps, h: seq<Event>, e: Event)
    requires Fair(caps, h)
    requires forall p :: PositionStarts(h + [e], p) <= 1
    requires forall source, owner :: Within(OwnerStarts(h + [e], source, owner), caps.For(source))
    ensures Fair(caps, h + [e])
  {
    var longer := h + [e];
    assert longer[..|longer|] == longer;
    assert forall n: nat :: n <= |h| ==> longer[..n] == h[..n];
  }

  lemma StartIsFair(caps: Caps, g: Gate, h: seq<Event>, source: Source, p: Position, owner: string, now: int)
    requires CycleInv(g, h) && Fair(caps, h)
    requires g.Decide(caps.For(source), source, p, owner, now) == Started
    ensures Fair(caps, h + [Start(p, owner, source)])
  {
    var longer := h + [Start(p, owner, source)];
    assert longer[..|h|] == h && h[..|h|] == h;
    forall q ensures PositionStarts(longer, q) <= 1 {
      assert PositionStarts(h[..|h|], q) <= 1;
      assert PositionStarts(h, p) == 0;
    }
    forall s, o ensures Within(OwnerStarts(longer, s, o), caps.For(s)) {
      assert Within(OwnerStarts(h[..|h|], s, o), caps.For(s));
      assert CountOf(g.Counts(s), o) == OwnerStarts(h, s, o);
    }
    FairGrows(caps, h, Start(p, owner, source));
  }

  lemma SettleKeeps(g: Gate, h: seq<Event>, p: Position, attemptsBefore: nat, outcome: Outcome, halted: bool,
                    clock: int)
    requires CycleInv(g, h) && BackoffInv(g, clock)
    ensures var g' := g.Settle(p, attemptsBefore, outcome, halted, clock);
            && CycleInv(g', h) && BackoffInv(g', clock)
            && g'.inFlight == g.inFlight - {p} && g'.submitAttempts == g.submitAttempts
  {
    var g' := g.Settle(p, attemptsBefore, outcome, halted, clock);
    assert g'.seen == g.seen && g'.ownerCounts == g.ownerCounts && g'.eventOwnerCounts == g.eventOwnerCounts;
  }

  lemma AskKeeps(caps: Caps, w: World, source: Source, p: Position, owner: string)
    requires Inv(caps, w)
    ensures Inv(caps, Next(caps, w, Ask(source, p, owner)))
  {
    if w.gate.Decide(caps.For(source), source, p, owner, w.clock) == Started {
      StartIsFair(caps, w.gate, w.history, source, p, owner, w.clock);
      CycleStep(w.gate, w.history, source, p, owner);
      CallBegins(w.gate, w.calls, w.nextId, Call(p, owner, source, w.gate.submitAttempts, 0, 0),
                 w.gate.Begin(source, p, owner));
    }
  }

  lemma AttemptKeeps(caps: Caps, w: World, id: nat)
    requires Inv(caps, w) && id in w.calls
    ensures Inv(caps, Next(caps, w, Attempt(id)))
  {
    var g := w.gate.(submitAttempts := w.gate.submitAttempts + 1);
    var calls := Counted(w.calls, id);
    assert Next(caps, w, Attempt(id)) == w.(gate := g, calls := calls);
    assert CallsInv(g, calls, w.nextId) by { CallAttempts(w.gate, w.calls, w.nextId, id, g); }
    assert AttemptsInv(g, calls) by { AttemptsCounted(w.gate, w.calls, id); }
    assert CycleInv(g, w.history) by { SameCycle(w.gate, w.history, g); }
    assert BackoffInv(g, w.clock);
  }

  lemma FinishKeeps(caps: Caps, w: World, id: nat, outcome: Outcome, halted: bool)
    requires Inv(caps, w)
    ensures Inv(caps, Next(caps, w, Finish(id, outcome, halted)))
  {
    if id in w.calls {
      var c := w.calls[id];
      SettleKeeps(w.gate, w.history, c.position, c.attemptsBefore, outcome, halted, w.clock);
      CallEnds(w.gate, w.calls, w.nextId, id, w.gate.Settle(c.position, c.attemptsBefore, outcome, halted, w.clock));
    }
  }

  lemma NewCycleKeeps(caps: Caps, w: World)
    requires Inv(caps, w)
    ensures Inv(caps, Next(caps, w, NewCycle))
  {
    CycleStep(w.gate, w.history, Polling, V12("", 0), "");
    FairGrows(caps, w.history, Reset);
    SameCalls(w.gate, w.calls, w.nextId, w.gate.ResetCycle());
  }

  lemma InvStep(caps: Caps, w: World, a: Action)
    requires Inv(caps, w)
    ensures Inv(caps, Next(caps, w, a))
  {
    match a
    case Ask(source, p, owner) => AskKeeps(caps, w, source, p, owner);
    case Attempt(id) => if id in w.calls { AttemptKeeps(caps, w, id); }
    case Finish(id, outcome, halted) => FinishKeeps(caps, w, id, outcome, halted);
    case NewCycle => NewCycleKeeps(caps, w);
    case Evict(p) =>
      var g := w.gate.(backoff := w.gate.backoff - {p});
      SameCalls(w.gate, w.calls, w.nextId, g);
      SameCycle(w.gate, w.history, g);
    case Tick(ms) =>
  }

  lemma {:induction false} RunInv(caps: Caps, actions: seq<Action>, clock: int)
    ensures Inv(caps, Run(caps, actions, clock))
  {
    if actions == [] {
      var h: seq<Event> := [];
      assert forall n: nat :: n <= |h| ==> h[..n] == [];
    } else {
      RunInv(caps, actions[..|actions| - 1], clock);
      InvStep(caps, Run(caps, actions[..|actions| - 1], clock), actions[|actions| - 1]);
    }
  }

  // ---------- the guarantees ----------

  /**
   H-1: whatever resets, evictions and settlements happen meanwhile, no position has
   two `liquidate()` calls in progress, and a position is held back as in flight only
   while a call for it is in progress.
   */
  lemma OneCallPerPosition(caps: Caps, actions: seq<Action>, clock: int, p: Position)
    ensures var w := Run(caps, actions, clock);
            && (forall i, j :: i in w.calls && j in w.calls && i != j ==> w.calls[i].position != w.calls[j].position)
            && (p in w.gate.inFlight <==> exists i :: i in w.calls && w.calls[i].position == p)
  {
    RunInv(caps, actions, clock);
  }

  lemma {:induction false} StartsAddUp(h: seq<Event>, i: nat, j: nat, p: Position)
    requires i < j <= |h| && h[i].Start? && h[i].position == p
    requires forall k :: i < k < j ==> h[k].Start?
    ensures PositionStarts(h[..j], p) >= 1
    decreases j
  {
    assert h[..j][..j - 1] == h[..j - 1];
    if j > i + 1 {
      StartsAddUp(h, i, j - 1, p);
    }
  }

  /** Two starts for the same position always have a cycle reset between them. */
  lemma OneStartPerCycle(caps: Caps, actions: seq<Action>, clock: int, i: nat, j: nat)
    requires var h := Run(caps, actions, clock).history;
             i < j < |h| && h[i].Start? && h[j].Start? && h[i].position == h[j].position
    ensures exists k :: i < k < j && Run(caps, actions, clock).history[k] == Reset
  {
    RunInv(caps, actions, clock);
    var h := Run(caps, actions, clock).history;
    assert h[..j + 1][..j] == h[..j];
    assert PositionStarts(h[..j + 1], h[i].position) <= 1;
    if forall k :: i < k < j ==> h[k].Start? {
      StartsAddUp(h, i, j, h[i].position);
    } else {
      var k :| i < k < j && !h[k].Start?;
      assert h[k] == Reset;
    }
  }

  function StartsIn(h: seq<Event>, source: Source, owner: string): nat {
    if h == [] then 0
    else
      var last := h[|h| - 1];
      StartsIn(h[..|h| - 1], source, owner) +
      if last.Start? && last.owner == owner && last.source == source then 1 else 0
  }

  lemma {:induction false} WindowWithinCount(h: seq<Event>, i: nat, j: nat, source: Source, owner: string)
    requires i <= j <= |h| && forall k :: i <= k < j ==> h[k].Start?
    ensures StartsIn(h[i..j], source, owner) <= OwnerStarts(h[..j], source, owner)
    decreases j
  {
    if i < j {
      WindowWithinCount(h, i, j - 1, source, owner);
      assert h[..j][..j - 1] == h[..j - 1];
      assert h[i..j][..|h[i..j]| - 1] == h[i..j - 1];
    }
  }

  /** Between two resets each path starts at most its own cap of liquidations per owner. */
  lemma OwnerCapsHold(caps: Caps, actions: seq<Action>, clock: int, i: nat, j: nat, source: Source, owner: string)
    requires var h := Run(caps, actions, clock).history; i <= j <= |h| && forall k :: i <= k < j ==> h[k].Start?
    requires caps.For(source).Limit?
    ensures StartsIn(Run(caps, actions, clock).history[i..j], source, owner) <= Max(0, caps.For(source).n)
  {
    RunInv(caps, actions, clock);
    WindowWithinCount(Run(caps, actions, clock).history, i, j, source, owner);
    assert Within(OwnerStarts(Run(caps, actions, clock).history[..j], source, owner), caps.For(source));
  }

  /**
   The gate on the history alone: a position is started exactly when no call for it is in
   progress, it is not backing off, it was not started since the last reset, and the
   owner's starts on this path since then are below the cap.
   */
  lemma StartsExactly(caps: Caps, actions: seq<Action>, clock: int, source: Source, p: Position, owner: string)
    ensures var w := Run(caps, actions, clock);
            Next(caps, w, Ask(source, p, owner)).history == w.history + [Start(p, owner, source)] <==>
            && (forall i :: i in w.calls ==> w.calls[i].position != p)
            && (p in w.gate.backoff ==> w.gate.backoff[p].retryAfter <= w.clock)
            && PositionStarts(w.history, p) == 0
            && (caps.For(source).Limit? ==> OwnerStarts(w.history, source, owner) < caps.For(source).n)
  {
    RunInv(caps, actions, clock);
    var w := Run(caps, actions, clock);
    assert p in w.gate.inFlight <==> exists i :: i in w.calls && w.calls[i].position == p;
    assert CountOf(w.gate.Counts(source), owner) == OwnerStarts(w.history, source, owner);
    assert w.history != w.history + [Start(p, owner, source)] by {
      assert |w.history + [Start(p, owner, source)]| == |w.history| + 1;
    }
  }

  /** A refusal names the first of these reasons that the history gives. */
  lemma RefusedExactly(caps: Caps, actions: seq<Action>, clock: int, source: Source, p: Position, owner: string)
    ensures var w := Run(caps, actions, clock);
            var cap := caps.For(source);
            w.gate.Decide(cap, source, p, owner, w.clock) ==
            if exists i :: i in w.calls && w.calls[i].position == p then InFlight
            else if p in w.gate.backoff && w.clock < w.gate.backoff[p].retryAfter then BackingOff
            else if PositionStarts(w.history, p) > 0 then SeenThisCycle
            else if cap.Limit? && OwnerStarts(w.history, source, owner) >= cap.n then OwnerAtCap
            else Started
  {
    RunInv(caps, actions, clock);
    var w := Run(caps, actions, clock);
    assert p in w.gate.inFlight <==> exists i :: i in w.calls && w.calls[i].position == p;
    assert CountOf(w.gate.Counts(source), owner) == OwnerStarts(w.history, source, owner);
  }

  /** n different positions of one owner, asked for one after the other. */
  function Burst(source: Source, owner: string, n: nat): seq<Action> {
    if n == 0 then [] else Burst(source, owner, n - 1) + [Ask(source, V12("", n - 1), owner)]
  }

  ghost predicate AllStarted(g: Gate, h: seq<Event>, source: Source, owner: string, n: nat) {
    && OwnerStarts(h, source, owner) == n
    && (forall p :: p in g.inFlight + g.seen ==> p.V12? && p.accountIdx < n)
    && g.backoff == map[]
  }

  lemma OneMoreStarts(g: Gate, h: seq<Event>, source: Source, owner: string, n: nat)
    requires AllStarted(g, h, source, owner, n)
    ensures g.Decide(NotANumber, source, V12("", n), owner, 0) == Started
    ensures AllStarted(g.Begin(source, V12("", n), owner), h + [Start(V12("", n), owner, source)], source, owner, n + 1)
  {
    assert (h + [Start(V12("", n), owner, source)])[..|h|] == h;
    assert V12("", n) !in g.inFlight + g.seen;
  }

  /** With a cap that is not a number the bound is lost: any number of starts in one cycle. */
  lemma {:induction false} MalformedCapNeverRefuses(caps: Caps, source: Source, owner: string, n: nat, clock: int)
    requires caps.For(source) == NotANumber
    ensures var w := Run(caps, Burst(source, owner, n), clock); AllStarted(w.gate, w.history, source, owner, n)
  {
    if n > 0 {
      MalformedCapNeverRefuses(caps, source, owner, n - 1, clock);
      var acts := Burst(source, owner, n);
      assert acts[..|acts| - 1] == Burst(source, owner, n - 1);
      var w := Run(caps, acts[..|acts| - 1], clock);
      OneMoreStarts(w.gate, w.history, source, owner, n - 1);
    }
  }

  /** Backoff never holds a position for more than a minute from now. */
  lemma {:induction false} BackoffIsShort(caps: Caps, actions: seq<Action>, clock: int, p: Position)
    ensures var w := Run(caps, actions, clock);
            p in w.gate.backoff ==> w.gate.backoff[p].retryAfter <= w.clock + POSITION_BACKOFF_MAX_MS
  {
    RunInv(caps, actions, clock);
  }

  /**
   What a settling call does to the backoffs, whatever the shared counter did meanwhile: a
   landed liquidation clears its position, one that threw changes nothing, and one that came
   back without a signature is charged exactly when the breaker is not halted and it, or
   some other call while it ran, attempted a transaction.
   */
  lemma FailuresAreCharged(caps: Caps, actions: seq<Action>, clock: int, id: nat, outcome: Outcome, halted: bool)
    requires id in Run(caps, actions, clock).calls
    ensures var w := Run(caps, actions, clock);
            var c := w.calls[id];
            var after := Next(caps, w, Finish(id, outcome, halted)).gate.backoff;
            var failures := if c.position in w.gate.backoff then w.gate.backoff[c.position].failures else 0;
            match outcome
            case Landed => after == w.gate.backoff - {c.position}
            case Threw => after == w.gate.backoff
            case NoSignature =>
              after == if !halted && (c.own > 0 || c.others > 0)
                       then w.gate.backoff[c.position := Backoff(failures + 1, w.clock + Delay(failures + 1))]
                       else w.gate.backoff
  {
    RunInv(caps, actions, clock);
    var w := Run(caps, actions, clock);
    SettledBackoff(w.gate, w.calls[id], outcome, halted, w.clock);
  }

  lemma SettledBackoff(g: Gate, c: Call, outcome: Outcome, halted: bool, now: int)
    requires g.submitAttempts == c.attemptsBefore + c.own + c.others
    ensures var after := g.Settle(c.position, c.attemptsBefore, outcome, halted, now).backoff;
            var failures := if c.position in g.backoff then g.backoff[c.position].failures else 0;
            match outcome
            case Landed => after == g.backoff - {c.position}
            case Threw => after == g.backoff
            case NoSignature =>
              after == if !halted && (c.own > 0 || c.others > 0)
                       then g.backoff[c.position := Backoff(failures + 1, now + Delay(failures + 1))]
                       else g.backoff
  {
  }

  lemma {:induction false} Pow2Grows(a: nat, b: nat)
    requires a <= b
    ensures Pow2(a) <= Pow2(b)
  {
    if a < b { Pow2Grows(a, b - 1); }
  }

  /**
   The cooldown in seconds: nothing after the first failure, then 5, 10, 20 and 40, and the full
   minute from the sixth on, so it never shrinks as failures accumulate.
   */
  lemma DelayEscalates(f: nat, g: nat)
    requires f <= g
    ensures Delay(f) <= Delay(g)
    ensures match f
            case 0 => Delay(f) == 0
            case 1 => Delay(f) == 0
            case 2 => Delay(f) == 5_000
            case 3 => Delay(f) == 10_000
            case 4 => Delay(f) == 20_000
            case 5 => Delay(f) == 40_000
            case _ => Delay(f) == 60_000
  {
    assert Pow2(0) == 1 && Pow2(1) == 2 && Pow2(2) == 4;
    if f >= 2 {
      Pow2Grows(f - 2, g - 2);
      if f >= 6 { Pow2Grows(4, f - 2); } else { Pow2Grows(f - 2, 3); }
      assert Pow2(3) == 8 && Pow2(4) == 16;
    }
  }
}
