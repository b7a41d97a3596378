/**
 `keeperSend`: reserve at the gate, record exactly once on every way out. The
 class performs one call; the world interleaves any number of them over one
 budget, each call suspended while it estimates and while it sends.
 */
module KeeperSend {
  import opened Prelude
  import opened Events
  import opened BudgetState
  import opened BudgetLedger
  import BudgetLog
  import BudgetSliding
  import BudgetTumbling
  import KB = KeeperBudget

  const BASE_FEE_LAMPORTS := 5_000

  /** Base fee, priority fee rounded up, tip and rent; NaN and Infinity spread. */
  function EstimateLamportCost(microLamports: Num, cu: Num, jitoTip: Num, extra: Num): Num {
    if microLamports.NonFinite? || cu.NonFinite? || jitoTip.NonFinite? || extra.NonFinite? then NonFinite
    else Finite(BASE_FEE_LAMPORTS + CeilDiv(microLamports.v * cu.v, 1_000_000) + jitoTip.v + extra.v)
  }

  /** The priority fee in the estimate is the price of the compute units, in whole lamports rounded up. */
  lemma PriorityFeeIsRoundedUp(microLamports: int, cu: int, jitoTip: int, extra: int)
    ensures var cost := EstimateLamportCost(Finite(microLamports), Finite(cu), Finite(jitoTip), Finite(extra));
            && cost.Finite?
            && var priority := cost.v - 5_000 - jitoTip - extra;
               (priority - 1) * 1_000_000 < microLamports * cu <= priority * 1_000_000
  {
  }

  /** What reconciliation compares the estimate with: the receipt's fee and the tip, no rent. */
  function RealizedTotal(metaFee: int, jitoTip: int): int {
    metaFee + jitoTip
  }

  /** When the fee was estimated exactly, reconciliation hands back the rent and nothing else. */
  lemma RentIsHandedBack(microLamports: int, cu: int, jitoTip: int, rent: int)
    ensures var fee := EstimateLamportCost(Finite(microLamports), Finite(cu), Finite(0), Finite(0)).v;
            EstimateLamportCost(Finite(microLamports), Finite(cu), Finite(jitoTip), Finite(rent)).v
            == RealizedTotal(fee, jitoTip) + rent
  {
  }

  const REVERT_PREFIX := "Transaction failed:"

  function ClassifySendError(message: string): TxResult {
    if REVERT_PREFIX <= message then Reverted else Fail
  }

  /** How the synchronous stretch after the estimate ends when the gate admitted the send. */
  datatype Path = DryRun | LostLeadership | Threw | Start

  datatype Outcome = Confirmed | Error(message: string)

  function LandedAs(outcome: Outcome): TxResult {
    match outcome
    case Confirmed => Success
    case Error(message) => ClassifySendError(message)
  }

  /** What an admitted send is recorded as before it leaves that stretch, if at all. */
  function RecordedAtOnce(path: Path): Option<TxResult> {
    match path
    case DryRun => Some(Success)
    case LostLeadership => Some(Drop)
    case Threw => Some(Drop)
    case Start => None
  }

  /** The budget after the gate and everything up to the send, and whether the send started. */
  function Gated(c: Config, b: Budget, cost: Num, lane: TxType, path: Path, now: int): (Budget, bool) {
    var (b', admitted) := b.CanSpend(c, cost, lane, now);
    if !admitted then (b'.Stats(c, now), false)
    else
      match RecordedAtOnce(path)
      case Some(result) => (b'.RecordTx(c, cost, result, now), false)
      case None => (b', true)
  }

  class SendCall {
    const lane: TxType
    const cost: Num
    var recorded: bool
    ghost var records: seq<TxResult>

    constructor (lane: TxType, cost: Num)
      ensures this.lane == lane && this.cost == cost && !recorded && records == []
    {
      this.lane, this.cost, recorded, records := lane, cost, false, [];
    }

    ghost predicate Valid()
      reads this
    {
      |records| <= 1 && (recorded <==> |records| == 1)
    }

    /** The idempotent `release` closure. */
    method Release(budget: KB.KeeperBudget, result: TxResult, now: int)
      requires Valid()
      modifies this, budget
      ensures Valid() && recorded
      ensures if old(recorded)
              then records == old(records) && budget.View() == old(budget.View())
              else records == [result] && budget.View() == old(budget.View()).RecordTx(budget.config, cost, result, now)
    {
      if recorded { return; }
      recorded := true;
      records := records + [result];
      budget.RecordTx(cost, result, now);
    }

    /** From the budget gate to the moment the send starts, or to the return. */
    method GateAndLaunch(budget: KB.KeeperBudget, path: Path, now: int) returns (started: bool)
      requires Valid() && !recorded
      modifies this, budget
      ensures Valid()
      ensures (budget.View(), started) == Gated(budget.config, old(budget.View()), cost, lane, path, now)
      ensures var admitted := old(budget.View()).CanSpend(budget.config, cost, lane, now).1;
              && (started ==> admitted && records == [])
              && (admitted && !started ==> recorded && RecordedAtOnce(path) == Some(records[0]))
              && (!admitted ==> records == [])
    {
      var admitted := budget.CanSpend(cost, lane, now);
      if !admitted {
        var stats := budget.GetStats(now);
        return false;
      }
      match path {
        case DryRun => Release(budget, Success, now);
        case LostLeadership => Release(budget, Drop, now);
        case Threw =>
        case Start => return true;
      }
      Release(budget, Drop, now); // finally
      return false;
    }

    /** From the settlement of sendWithRetryKeeper to the return or rethrow. */
    method Land(budget: KB.KeeperBudget, outcome: Outcome, now: int)
      requires Valid() && !recorded
      modifies this, budget
      ensures Valid() && records == [LandedAs(outcome)]
      ensures budget.View() == old(budget.View()).RecordTx(budget.config, cost, LandedAs(outcome), now)
    {
      match outcome {
        case Confirmed => Release(budget, Success, now);
        case Error(message) => Release(budget, ClassifySendError(message), now);
      }
      Release(budget, Drop, now); // finally
    }
  }

  /** A send counts as a landed revert exactly when its error reads as the prefix and something after it. */
  lemma RevertsAreRecognised(message: string)
    ensures LandedAs(Error(message)) == Reverted <==> exists rest :: message == "Transaction failed:" + rest
    ensures LandedAs(Error(message)) != Reverted ==> LandedAs(Error(message)) == Fail
  {
    if REVERT_PREFIX <= message {
      assert message == REVERT_PREFIX + message[|REVERT_PREFIX|..];
    }
  }

  /**
   What the classification is for: an error is booked as spent either way, but one that
   says the transaction landed and reverted leaves the success rate every later gate looks
   at as it was, and any other counts in it as a failure to land.
   */
  lemma RevertsSpendButDoNotFail(c: Config, calls: seq<BudgetLog.Call>, cost: nat, message: string, now: int, t: int)
    requires BudgetLog.Clocked(calls) && BudgetLog.LastNow(calls) <= now <= t && now > 0
    ensures var call := BudgetLog.Call(now, BudgetLog.RecordTx(Finite(cost), LandedAs(Error(message))));
            var before, after := BudgetLog.Run(c, calls), BudgetLog.Run(c, calls + [call]);
            && after.hourLog == before.hourLog + [Stamped(now, cost)]
            && after.dayLog == before.dayLog + [Stamped(now, cost)]
            && after.txLog == before.txLog +
               (if exists rest :: message == "Transaction failed:" + rest then [] else [Stamped(now, false)])
            && (Below(BudgetLog.RateAt(c, after.b, t), c.txSuccessRateThreshold) <==>
                BudgetLog.RateLow(c, after.txLog, t))
  {
    var call := BudgetLog.Call(now, BudgetLog.RecordTx(Finite(cost), LandedAs(Error(message))));
    RevertsAreRecognised(message);
    BudgetLog.RateFromLog(c, calls + [call], t);
    RecordLogged(c, calls, call, cost, LandedAs(Error(message)));
  }

  lemma RecordLogged(c: Config, calls: seq<BudgetLog.Call>, call: BudgetLog.Call, cost: nat, result: TxResult)
    requires call.what == BudgetLog.RecordTx(Finite(cost), result) && (result == Fail || result == Reverted)
    ensures var before, after := BudgetLog.Run(c, calls), BudgetLog.Run(c, calls + [call]);
            && after.hourLog == before.hourLog + [Stamped(call.now, cost)]
            && after.dayLog == before.dayLog + [Stamped(call.now, cost)]
            && after.txLog == before.txLog + (if result == Fail then [Stamped(call.now, false)] else [])
  {
    assert (calls + [call])[..|calls|] == calls;
    assert BudgetLog.Run(c, calls).txLog + [] == BudgetLog.Run(c, calls).txLog;
  }

  /** A malformed fee input is refused, launches nothing, and latches the breaker. */
  lemma MalformedFeeLatches(c: Config, b: Budget, micro: Num, cu: Num, tip: Num, extra: Num,
                            lane: TxType, path: Path, now: int)
    requires micro.NonFinite? || cu.NonFinite? || tip.NonFinite? || extra.NonFinite?
    ensures var (b', started) := Gated(c, b, EstimateLamportCost(micro, cu, tip, extra), lane, path, now);
            && !started && b'.halted == (if b.halted.Some? then b.halted else Some(NonFiniteCost))
            && b'.reservedLamports == b.reservedLamports && b'.reservedTxCount == b.reservedTxCount
  {
  }

  // ---------- many calls over one budget ----------

  datatype Phase = Estimating | Sending | Done

  datatype Send = Send(lane: TxType, phase: Phase, cost: nat, admitted: bool, records: seq<TxResult>)

  datatype World = World(ledger: Ledger, acts: seq<Act>, sends: seq<Send>)

  datatype Move =
    | Enter(lane: TxType)
    | Abandon(k: nat)                                  // proven to fail, or the estimate threw
    | Gate(k: nat, cost: Num, path: Path)
    | Land(k: nat, i: nat, outcome: Outcome)
    | Other(what: What)                                // reconciliation, stats, operator

  predicate CanMove(w: World, m: Move) {
    match m
    case Enter(_) => true
    case Abandon(k) => k < |w.sends| && w.sends[k].phase == Estimating
    case Gate(k, _, _) => k < |w.sends| && w.sends[k].phase == Estimating
    case Land(k, i, _) =>
      && k < |w.sends| && w.sends[k].phase == Sending
      && i < |w.ledger.flights| && w.ledger.flights[i] == Flight(w.sends[k].cost, w.sends[k].lane)
    case Other(what) => !what.Spend? && !what.Settle?
  }

  function Perform(c: Config, w: World, act: Act): World {
    w.(ledger := Next(c, w.ledger, act), acts := w.acts + [act])
  }

  function Step(c: Config, w: World, m: Move, now: int): World
    requires CanMove(w, m)
  {
    match m
    case Enter(lane) => w.(sends := w.sends + [Send(lane, Estimating, 0, false, [])])
    case Abandon(k) => w.(sends := w.sends[k := w.sends[k].(phase := Done)])
    case Gate(k, cost, path) =>
      var s := w.sends[k];
      var w1 := Perform(c, w, Act(now, Spend(cost, s.lane)));
      if !w.ledger.B().CanSpend(c, cost, s.lane, now).1 || !BudgetLog.Ok(cost) then
        Perform(c, w1, Act(now, Peek)).(sends := w.sends[k := s.(phase := Done)])
      else
        var t := s.(admitted := true, cost := cost.v);
        (match RecordedAtOnce(path)
         case None => w1.(sends := w.sends[k := t.(phase := Sending)])
         case Some(result) =>
           Perform(c, w1, Act(now, Settle(|w.ledger.flights|, result)))
             .(sends := w.sends[k := t.(phase := Done, records := [result])]))
    case Land(k, i, outcome) =>
      Perform(c, w, Act(now, Settle(i, LandedAs(outcome))))
        .(sends := w.sends[k := w.sends[k].(phase := Done, records := w.sends[k].records + [LandedAs(outcome)])])
    case Other(what) => Perform(c, w, Act(now, what))
  }

  const Idle: World := World(Empty, [], [])

  ghost predicate IsRun(c: Config, run: seq<World>, moves: seq<(Move, int)>) {
    && |run| == |moves| + 1 && run[0] == Idle
    && (forall j :: 0 <= j < |moves| ==> moves[j].1 > 0)
    && (forall i, j :: 0 <= i < j < |moves| ==> moves[i].1 <= moves[j].1)
    && forall j :: 0 <= j < |moves| ==>
         CanMove(run[j], moves[j].0) && run[j + 1] == Step(c, run[j], moves[j].0, moves[j].1)
  }

  function Wire(s: Send): multiset<Flight> {
    if s.phase == Sending then multiset{Flight(s.cost, s.lane)} else multiset{}
  }

  /** The flights of the sends that are on the wire. */
  function OnTheWire(sends: seq<Send>): multiset<Flight> {
    if sends == [] then multiset{}
    else OnTheWire(sends[..|sends| - 1]) + Wire(sends[|sends| - 1])
  }

  predicate RecordedOnce(s: Send) {
    match s.phase
    case Estimating => !s.admitted && s.records == []
    case Sending => s.admitted && s.records == []
    case Done => |s.records| == if s.admitted then 1 else 0
  }

  ghost predicate Inv(c: Config, w: World, now: int) {
    && Kept(c, w, now)
    && multiset(w.ledger.flights) == OnTheWire(w.sends)
    && forall k :: 0 <= k < |w.sends| ==> RecordedOnce(w.sends[k])
  }

  lemma {:induction false} WireUpdate(sends: seq<Send>, k: nat, t: Send)
    requires k < |sends|
    ensures OnTheWire(sends[k := t]) + Wire(sends[k]) == OnTheWire(sends) + Wire(t)
  {
    var n := |sends| - 1;
    var front, last := sends[..n], sends[n];
    if k == n {
      assert sends[k := t][..n] == front;
      MultisetSwap(OnTheWire(front), Wire(t), Wire(last));
    } else {
      WireUpdate(front, k, t);
      assert sends[k := t][..n] == front[k := t] && front[k] == sends[k];
      MultisetExchange(OnTheWire(front[k := t]), OnTheWire(front), Wire(last), Wire(sends[k]), Wire(t));
    }
  }

  lemma MultisetSwap<T>(a: multiset<T>, x: multiset<T>, y: multiset<T>)
    ensures a + x + y == a + y + x
  {
  }

  lemma MultisetExchange<T>(a: multiset<T>, b: multiset<T>, l: multiset<T>, x: multiset<T>, y: multiset<T>)
    requires a + x == b + y
    ensures a + l + x == b + l + y
  {
    assert a + l + x == (a + x) + l && b + l + y == (b + y) + l;
  }

  /** Inv after send k moved on to t and the flights moved with it. */
  lemma SendMoved(c: Config, w: World, k: nat, t: Send, v: World, clock: int, now: int)
    requires Inv(c, w, clock) && k < |w.sends| && v.sends == w.sends[k := t] && RecordedOnce(t)
    requires Kept(c, v, now)
    requires multiset(v.ledger.flights) + Wire(w.sends[k]) == multiset(w.ledger.flights) + Wire(t)
    ensures Inv(c, v, now)
  {
    WireUpdate(w.sends, k, t);
    MultisetCancel(multiset(v.ledger.flights), OnTheWire(v.sends), Wire(w.sends[k]));
  }

  lemma MultisetCancel<T>(a: multiset<T>, b: multiset<T>, x: multiset<T>)
    requires a + x == b + x
    ensures a == b
  {
    assert a == (a + x) - x && b == (b + x) - x;
  }

  lemma FlightTaken(fs: seq<Flight>, i: nat)
    requires i < |fs|
    ensures multiset(Without(fs, i)) + multiset{fs[i]} == multiset(fs)
  {
    assert fs == fs[..i] + [fs[i]] + fs[i + 1..];
  }

  /** The world's ledger is what its acts make it. */
  ghost predicate Kept(c: Config, w: World, now: int) {
    w.ledger == Run(c, w.acts) && Clocked(w.acts) && LastNow(w.acts) <= now
  }

  lemma ClockedOneMore(acts: seq<Act>, act: Act)
    requires Clocked(acts) && LastNow(acts) <= act.now && act.now > 0
    ensures Clocked(acts + [act]) && LastNow(acts + [act]) == act.now
  {
    forall i | 0 <= i < |acts| ensures acts[i].now <= act.now {
      assert acts[i].now <= acts[|acts| - 1].now;
    }
  }

  lemma PerformKept(c: Config, w: World, act: Act, now: int, v: World)
    requires Kept(c, w, now) && now == act.now && now > 0
    requires v.ledger == Next(c, w.ledger, act) && v.acts == w.acts + [act]
    ensures Kept(c, v, now)
  {
    RunOneMore(c, w.acts, act, w.ledger);
    ClockedOneMore(w.acts, act);
  }

  lemma GateFlights(c: Config, w: World, k: nat, cost: Num, path: Path, now: int)
    requires CanMove(w, Gate(k, cost, path)) && RecordedOnce(w.sends[k])
    ensures var v := Step(c, w, Gate(k, cost, path), now);
            && v.sends == w.sends[k := v.sends[k]] && RecordedOnce(v.sends[k])
            && v.ledger.flights == w.ledger.flights
                 + (if v.sends[k].phase == Sending then [Flight(v.sends[k].cost, v.sends[k].lane)] else [])
  {
    var s := w.sends[k];
    var n := |w.ledger.flights|;
    var v := Step(c, w, Gate(k, cost, path), now);
    if !w.ledger.B().CanSpend(c, cost, s.lane, now).1 || !BudgetLog.Ok(cost) {
      assert w.ledger.flights + [] == w.ledger.flights;
    } else if path != Start {
      assert Without(w.ledger.flights + [Flight(cost.v, s.lane)], n) == w.ledger.flights;
    }
  }

  lemma FlightsOnTheWire(fs: seq<Flight>, s: Send, fs': seq<Flight>)
    requires fs' == fs + (if s.phase == Sending then [Flight(s.cost, s.lane)] else [])
    ensures multiset(fs') == multiset(fs) + Wire(s)
  {
  }

  lemma GateActs(c: Config, w: World, k: nat, cost: Num, path: Path, clock: int, now: int)
    requires Kept(c, w, clock) && clock <= now && now > 0
    requires CanMove(w, Gate(k, cost, path))
    ensures Kept(c, Step(c, w, Gate(k, cost, path), now), now)
  {
    var s := w.sends[k];
    var w1 := Perform(c, w, Act(now, Spend(cost, s.lane)));
    PerformKept(c, w, Act(now, Spend(cost, s.lane)), now, w1);
    var v := Step(c, w, Gate(k, cost, path), now);
    if !w.ledger.B().CanSpend(c, cost, s.lane, now).1 || !BudgetLog.Ok(cost) {
      PerformKept(c, w1, Act(now, Peek), now, v);
    } else if path != Start {
      PerformKept(c, w1, Act(now, Settle(|w.ledger.flights|, RecordedAtOnce(path).value)), now, v);
    } else {
      assert v.ledger == w1.ledger && v.acts == w1.acts;
    }
  }

  lemma GateInv(c: Config, w: World, k: nat, cost: Num, path: Path, clock: int, now: int)
    requires Inv(c, w, clock) && clock <= now && now > 0 && CanMove(w, Gate(k, cost, path))
    ensures Inv(c, Step(c, w, Gate(k, cost, path), now), now)
  {
    GateActs(c, w, k, cost, path, clock, now);
    GateFlights(c, w, k, cost, path, now);
    var v := Step(c, w, Gate(k, cost, path), now);
    FlightsOnTheWire(w.ledger.flights, v.sends[k], v.ledger.flights);
    SendMoved(c, w, k, v.sends[k], v, clock, now);
  }

  lemma LandInv(c: Config, w: World, k: nat, i: nat, outcome: Outcome, clock: int, now: int)
    requires Inv(c, w, clock) && clock <= now && now > 0 && CanMove(w, Land(k, i, outcome))
    ensures Inv(c, Step(c, w, Land(k, i, outcome), now), now)
  {
    var v := Step(c, w, Land(k, i, outcome), now);
    PerformKept(c, w, Act(now, Settle(i, LandedAs(outcome))), now, v);
    FlightTaken(w.ledger.flights, i);
    SendMoved(c, w, k, v.sends[k], v, clock, now);
  }

  lemma EnterInv(c: Config, w: World, lane: TxType, clock: int, now: int)
    requires Inv(c, w, clock) && clock <= now
    ensures Inv(c, w.(sends := w.sends + [Send(lane, Estimating, 0, false, [])]), now)
  {
    var sends := w.sends + [Send(lane, Estimating, 0, false, [])];
    assert sends[..|sends| - 1] == w.sends;
    assert OnTheWire(sends) == OnTheWire(w.sends);
  }

  lemma OtherInv(c: Config, w: World, what: What, clock: int, now: int)
    requires Inv(c, w, clock) && clock <= now && now > 0 && !what.Spend? && !what.Settle?
    ensures Inv(c, Perform(c, w, Act(now, what)), now)
  {
    PerformKept(c, w, Act(now, what), now, Perform(c, w, Act(now, what)));
    assert Next(c, w.ledger, Act(now, what)).flights == w.ledger.flights;
  }

  lemma StepInv(c: Config, w: World, m: Move, clock: int, now: int)
    requires Inv(c, w, clock) && clock <= now && now > 0 && CanMove(w, m)
    ensures Inv(c, Step(c, w, m, now), now)
  {
    match m
    case Enter(lane) => EnterInv(c, w, lane, clock, now);
    case Abandon(k) => SendMoved(c, w, k, w.sends[k].(phase := Done), Step(c, w, m, now), clock, now);
    case Gate(k, cost, path) => GateInv(c, w, k, cost, path, clock, now);
    case Land(k, i, outcome) => LandInv(c, w, k, i, outcome, clock, now);
    case Other(what) => OtherInv(c, w, what, clock, now);
  }

  lemma {:induction false} RunInv(c: Config, run: seq<World>, moves: seq<(Move, int)>, j: nat)
    requires IsRun(c, run, moves) && j < |run|
    ensures Inv(c, run[j], if j == 0 then 0 else moves[j - 1].1)
  {
    if j > 0 {
      RunInv(c, run, moves, j - 1);
      StepInv(c, run[j - 1], moves[j - 1].0, if j == 1 then 0 else moves[j - 2].1, moves[j - 1].1);
    }
  }

  /**
   Over every interleaving of keeperSend calls and every way out of them: each
   admitted send records exactly once, and only when it is done; the budget has
   seen exactly the disciplined calls of BudgetLedger, so its caps hold.
   */
  lemma EverySendRecordsOnce(c: Config, run: seq<World>, moves: seq<(Move, int)>, j: nat)
    requires c.cycleWindowMs > 0 && IsRun(c, run, moves) && j < |run|
    ensures forall k :: 0 <= k < |run[j].sends| ==> RecordedOnce(run[j].sends[k])
    ensures run[j].ledger == Run(c, run[j].acts) && Clocked(run[j].acts)
    ensures var s := run[j].ledger;
            && s.B().reservedLamports == FlightCost(s.flights)
            && multiset(s.flights) == OnTheWire(run[j].sends)
            && s.B().cycleSpend + s.B().reservedLamports <= c.maxSolPerCycle + Total(s.gains, s.B().cycleStartMs)
            && s.B().cycleTxCount + s.B().reservedTxCount <= c.maxTxPerCycle
  {
    RunInv(c, run, moves, j);
    CycleCapsHold(c, run[j].acts);
  }

  /**
   What the wallet can lose, with reconciliation on: if reconciliation hands back at most
   `hourBack` in any hour and `dayBack` in any day, every interleaving of sends books no more
   than that above the hour and day caps, and in any span of one cycle no more above twice the
   cycle cap than what was handed back in that span.
   */
  lemma SendsDrainWithinCaps(c: Config, run: seq<World>, moves: seq<(Move, int)>, j: nat,
                             hourBack: nat, dayBack: nat, t: int)
    requires c.cycleWindowMs > 0 && IsRun(c, run, moves) && j < |run|
    requires BudgetSliding.Refunded(run[j].ledger, hourBack, dayBack)
    ensures BudgetSliding.Slid(run[j].ledger.booked, HOUR_MS, t) <= c.maxSolPerHour + hourBack
    ensures BudgetSliding.Slid(run[j].ledger.booked, DAY_MS, t) <= c.maxSolPerDay + dayBack
    ensures BudgetTumbling.Span(run[j].ledger.booked, c.cycleWindowMs, t)
            <= 2 * c.maxSolPerCycle + BudgetTumbling.Span(run[j].ledger.refunds, c.cycleWindowMs, t)
    ensures BudgetTumbling.Span(run[j].ledger.attempts, c.cycleWindowMs, t) <= 2 * c.maxTxPerCycle
  {
    RunInv(c, run, moves, j);
    BudgetSliding.SlidingDrainBound(c, run[j].acts, hourBack, dayBack, t);
    BudgetTumbling.TumblingWindowBound(c, run[j].acts, t);
  }

  lemma {:induction false} NothingOnTheWire(sends: seq<Send>)
    requires forall k :: 0 <= k < |sends| ==> sends[k].phase != Sending
    ensures OnTheWire(sends) == multiset{}
  {
    if sends != [] { NothingOnTheWire(sends[..|sends| - 1]); }
  }

  /** No reservation leaks: once no send is on the wire, nothing is reserved. */
  lemma NoReservationLeaks(c: Config, run: seq<World>, moves: seq<(Move, int)>, j: nat)
    requires c.cycleWindowMs > 0 && IsRun(c, run, moves) && j < |run|
    requires forall k :: 0 <= k < |run[j].sends| ==> run[j].sends[k].phase != Sending
    ensures run[j].ledger.B().reservedLamports == 0 && run[j].ledger.B().reservedTxCount == 0
  {
    EverySendRecordsOnce(c, run, moves, j);
    NothingOnTheWire(run[j].sends);
    RunInv(c, run, moves, j);
    CycleCapsHold(c, run[j].acts);
    assert |multiset(run[j].ledger.flights)| == 0;
  }

  /** A send on the wire can always settle: its flight is there to be released. */
  lemma SendsCanLand(c: Config, run: seq<World>, moves: seq<(Move, int)>, j: nat, k: nat, outcome: Outcome)
    returns (i: nat)
    requires IsRun(c, run, moves) && j < |run| && k < |run[j].sends| && run[j].sends[k].phase == Sending
    ensures CanMove(run[j], Land(k, i, outcome))
  {
    RunInv(c, run, moves, j);
    var s := run[j].sends[k];
    WireHas(run[j].sends, k);
    assert Flight(s.cost, s.lane) in multiset(run[j].ledger.flights);
    i :| 0 <= i < |run[j].ledger.flights| && run[j].ledger.flights[i] == Flight(s.cost, s.lane);
  }

  lemma {:induction false} WireHas(sends: seq<Send>, k: nat)
    requires k < |sends| && sends[k].phase == Sending
    ensures Flight(sends[k].cost, sends[k].lane) in OnTheWire(sends)
  {
    if k < |sends| - 1 { WireHas(sends[..|sends| - 1], k); }
  }

  /** The class and the world agree: one gated call takes the ledger's budget to Gated's. */
  lemma GateMatchesCall(c: Config, w: World, k: nat, cost: Num, path: Path, now: int)
    requires CanMove(w, Gate(k, cost, path))
    ensures Step(c, w, Gate(k, cost, path), now).ledger.B()
         == Gated(c, w.ledger.B(), cost, w.sends[k].lane, path, now).0
    ensures Step(c, w, Gate(k, cost, path), now).sends[k].phase == Sending
       <==> Gated(c, w.ledger.B(), cost, w.sends[k].lane, path, now).1
  {
    GateFields(c, w.ledger.B(), cost, w.sends[k].lane, now);
  }
}
