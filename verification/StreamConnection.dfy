/** Connecting, reconnecting and stopping the account stream. */
module StreamConnection {
  import opened Prelude

  /** How far a `connect()` in progress has got. */
  datatype Phase = Snapshotting | Subscribing

  /** `live` is the set of subscriptions the transport is serving; the adapter keeps one handle. */
  datatype Link = Link(
    running: bool, connected: bool, timer: bool, handle: Option<nat>, live: set<nat>,
    connects: map<nat, Phase>, nextId: nat)
  {
    function AdapterStop(): Link {
      if handle.None? then this else this.(live := live - {handle.value}, handle := None)
    }

    function Connect(): Link {
      this.(connects := connects[nextId := Snapshotting], nextId := nextId + 1)
    }

    function ScheduleReconnect(): Link {
      if running then this.(timer := true) else this
    }

    function Start(): Link {
      if running then this else this.(running := true).Connect()
    }

    function Stop(): Link {
      this.(running := false, timer := false).AdapterStop().(connected := false)
    }

    function ConnectFailed(id: nat): Link {
      this.(connects := connects - {id}, connected := false).AdapterStop().ScheduleReconnect()
    }

    function SnapshotSettled(id: nat, ok: bool): Link {
      if !ok then ConnectFailed(id)
      else if !running then this.(connects := connects - {id})
      else this.(connects := connects[id := Subscribing])
    }

    function SubscribeSettled(id: nat, ok: bool): Link {
      if !ok then ConnectFailed(id)
      else
        var subscribed := this.(connects := connects - {id}, live := live + {id}, handle := Some(id));
        if !running then subscribed.AdapterStop() else subscribed.(connected := true)
    }

    function OnStreamError(): Link {
      if !running then this else this.(connected := false).AdapterStop().ScheduleReconnect()
    }

    function TimerFires(): Link {
      var fired := this.(timer := false);
      if running then fired.Connect() else fired
    }
  }

  const NewLink := Link(false, false, false, None, {}, map[], 0)

  /** `AccountLoader`, its connection side; each method is one stretch of code between two awaits. */
  class AccountLoader {
    var running: bool
    var connected: bool
    var reconnectTimer: bool
    var handle: Option<nat>
    var live: set<nat>
    var connects: map<nat, Phase>
    var nextId: nat

    function View(): Link
      reads this
    {
      Link(running, connected, reconnectTimer, handle, live, connects, nextId)
    }

    constructor ()
      ensures View() == NewLink
    {
      running, connected, reconnectTimer, handle, live, connects, nextId := false, false, false, None, {}, map[], 0;
    }

    method Start()
      modifies this
      ensures View() == old(View()).Start()
    {
      if !running {
        running := true;
        Connect();
      }
    }

    method Stop()
      modifies this
      ensures View() == old(View()).Stop()
    {
      running := false;
      reconnectTimer := false;
      AdapterStop();
      connected := false;
    }

    method AdapterStop()
      modifies this
      ensures View() == old(View()).AdapterStop()
    {
      if handle.Some? {
        live := live - {handle.value};
      }
      handle := None;
    }

    method Connect()
      modifies this
      ensures View() == old(View()).Connect()
    {
      connects := connects[nextId := Snapshotting];
      nextId := nextId + 1;
    }

    method ScheduleReconnect()
      modifies this
      ensures View() == old(View()).ScheduleReconnect()
    {
      if !running || reconnectTimer {
        return;
      }
      reconnectTimer := true;
    }

    method ConnectFailed(id: nat)
      modifies this
      ensures View() == old(View()).ConnectFailed(id)
    {
      connects := connects - {id};
      connected := false;
      AdapterStop();
      ScheduleReconnect();
    }

    method SnapshotSettled(id: nat, ok: bool)
      modifies this
      ensures View() == old(View()).SnapshotSettled(id, ok)
    {
      if !ok {
        ConnectFailed(id);
      } else if !running {
        connects := connects - {id};
      } else {
        connects := connects[id := Subscribing];
      }
    }

    method SubscribeSettled(id: nat, ok: bool)
      modifies this
      ensures View() == old(View()).SubscribeSettled(id, ok)
    {
      if !ok {
        ConnectFailed(id);
        return;
      }
      connects := connects - {id};
      live := live + {id};
      handle := Some(id);
      if !running {
        AdapterStop();
      } else {
        connected := true;
      }
    }

    method OnStreamError()
      modifies this
      ensures View() == old(View()).OnStreamError()
    {
      if !running {
        return;
      }
      connected := false;
      AdapterStop();
      ScheduleReconnect();
    }

    method TimerFires()
      modifies this
      ensures View() == old(View()).TimerFires()
    {
      reconnectTimer := false;
      if running {
        Connect();
      }
    }
  }

  // ---------- every run ----------

  datatype Action =
    | Start
    | Stop
    | SnapshotSettles(id: nat, ok: bool)
    | SubscribeSettles(id: nat, ok: bool)
    | StreamFails(sub: nat)
    | TimerFires

  /** Awaits settle in the phase they are in; only a live subscription reports an error. */
  predicate Enabled(l: Link, a: Action) {
    match a
    case Start => true
    case Stop => true
    case SnapshotSettles(id, _) => id in l.connects && l.connects[id] == Snapshotting
    case SubscribeSettles(id, _) => id in l.connects && l.connects[id] == Subscribing
    case StreamFails(sub) => sub in l.live
    case TimerFires => l.timer
  }

  function Apply(l: Link, a: Action): Link {
    match a
    case Start => l.Start()
    case Stop => l.Stop()
    case SnapshotSettles(id, ok) => l.SnapshotSettled(id, ok)
    case SubscribeSettles(id, ok) => l.SubscribeSettled(id, ok)
    case StreamFails(_) => l.OnStreamError()
    case TimerFires => l.TimerFires()
  }

  function Next(l: Link, a: Action): Link {
    if Enabled(l, a) then Apply(l, a) else l
  }

  function RunFrom(l: Link, actions: seq<Action>): Link {
    if actions == [] then l else Next(RunFrom(l, actions[..|actions| - 1]), actions[|actions| - 1])
  }

  function Run(actions: seq<Action>): Link {
    RunFrom(NewLink, actions)
  }

  /** No restart while a `connect()` from before the stop is still in progress. */
  ghost predicate SettledFrom(l: Link, actions: seq<Action>) {
    forall n :: 0 <= n < |actions| && actions[n] == Start && !RunFrom(l, actions[..n]).running ==>
      RunFrom(l, actions[..n]).connects == map[]
  }

  ghost predicate Settled(actions: seq<Action>) {
    SettledFrom(NewLink, actions)
  }

  ghost predicate Connecting(l: Link) {
    exists id :: id in l.connects
  }

  ghost predicate Inv(l: Link) {
    && l.live == (if l.handle.None? then {} else {l.handle.value})
    && (l.connected <==> l.handle.Some?)
    && (forall i, j :: i in l.connects && j in l.connects ==> i == j)
    && (forall i :: i in l.connects ==> i < l.nextId)
    && (!l.running ==> !l.timer && l.handle.None?)
    && (l.running ==>
          || (Connecting(l) && !l.timer && l.handle.None?)
          || (!Connecting(l) && l.timer && l.handle.None?)
          || (!Connecting(l) && !l.timer && l.handle.Some?))
  }

  lemma InvStep(l: Link, a: Action)
    requires Inv(l) && (a == Start && !l.running ==> l.connects == map[])
    ensures Inv(Next(l, a))
  {
    var n := Next(l, a);
    if Enabled(l, a) {
      match a
      case Start =>
        if !l.running { assert l.nextId in n.connects; }
      case Stop =>
      case SnapshotSettles(id, ok) =>
        if ok && l.running { assert id in n.connects; }
      case SubscribeSettles(id, ok) =>
        assert n.connects == map[];
      case StreamFails(sub) =>
      case TimerFires =>
        assert l.nextId in n.connects;
    }
  }

  lemma {:induction false} InvFrom(l: Link, actions: seq<Action>)
    requires Inv(l) && SettledFrom(l, actions)
    ensures Inv(RunFrom(l, actions))
  {
    if actions != [] {
      var before := actions[..|actions| - 1];
      forall n | 0 <= n < |before| && before[n] == Start && !RunFrom(l, before[..n]).running
        ensures RunFrom(l, before[..n]).connects == map[]
      {
        assert before[..n] == actions[..n];
      }
      InvFrom(l, before);
      InvStep(RunFrom(l, before), actions[|actions| - 1]);
    }
  }

  lemma RunInv(actions: seq<Action>)
    requires Settled(actions)
    ensures Inv(Run(actions))
  {
    InvFrom(NewLink, actions);
  }

  /**
   H-5: a stopped loader serves no stream, waits for no timer and says so, also when the
   stop came while a connection was being made; and a running one is always in exactly
   one of connecting, waiting to reconnect, or served by the one stream it holds.
   */
  lemma OneStreamOrOnItsWay(actions: seq<Action>)
    requires Settled(actions)
    ensures var l := Run(actions);
            && (!l.running ==> l.live == {} && !l.timer && !l.connected)
            && (l.running ==>
                  || (Connecting(l) && !l.timer && l.live == {})
                  || (!Connecting(l) && l.timer && l.live == {})
                  || (!Connecting(l) && !l.timer && exists sub :: l.live == {sub} && l.handle == Some(sub)))
            && (l.connected <==> l.live != {})
  {
    RunInv(actions);
  }

  /** A stopped loader begins nothing: no connection goes on to subscribe, and no stream comes up. */
  lemma StoppedBeginsNothing(l: Link, a: Action)
    requires !l.running && l.handle.None? && a != Start
    ensures var n := Next(l, a);
            && !n.running && n.handle.None? && n.live <= l.live
            && forall id :: id in n.connects ==> id in l.connects && n.connects[id] == l.connects[id]
  {
  }

  // ---------- restarts: what holds always, and when one is safe ----------

  ghost predicate Alive(l: Link) {
    && (l.connected <==> l.handle.Some?)
    && (l.handle.Some? ==> l.handle.value in l.live)
    && (forall i :: i in l.connects ==> i < l.nextId)
    && (!l.running ==> !l.timer && l.handle.None?)
    && (l.running ==> Connecting(l) || l.timer || l.handle.Some?)
  }

  lemma AliveStep(l: Link, a: Action)
    requires Alive(l)
    ensures Alive(Next(l, a))
  {
    var n := Next(l, a);
    if Enabled(l, a) {
      match a
      case Start => if !l.running { assert l.nextId in n.connects; } else { assert n == l; }
      case Stop =>
      case SnapshotSettles(id, ok) => if ok && l.running { assert id in n.connects; }
      case SubscribeSettles(id, ok) =>
      case StreamFails(sub) =>
      case TimerFires => assert l.nextId in n.connects;
    }
  }

  /**
   Whatever is called when: a running loader is connecting, waiting to reconnect or holding
   a live stream, so it never wedges; it says connected exactly while it holds one; and a
   stopped one holds none and waits for no timer.
   */
  lemma {:induction false} NeverWedges(actions: seq<Action>)
    ensures Alive(Run(actions))
  {
    if actions != [] {
      NeverWedges(actions[..|actions| - 1]);
      AliveStep(Run(actions[..|actions| - 1]), actions[|actions| - 1]);
    }
  }

  /** From here on, as long as no further restart is early, a stopped loader serves no stream. */
  ghost predicate NothingLeaks(l: Link) {
    forall more :: SettledFrom(l, more) ==> !RunFrom(l, more).running ==> RunFrom(l, more).live == {}
  }

  lemma OneMore(l: Link, actions: seq<Action>, a: Action)
    ensures RunFrom(l, actions + [a]) == Next(RunFrom(l, actions), a)
  {
    assert (actions + [a])[..|actions|] == actions;
  }

  /** Both subscriptions come up, the older one first; then the loader is stopped. */
  function BothComeUp(first: nat, second: nat): seq<Action> {
    [SubscribeSettles(first, true), SnapshotSettles(second, true), SubscribeSettles(second, true), Stop]
  }

  lemma BothComeUpRun(l: Link, lead: seq<Action>, first: nat, second: nat)
    ensures var m := RunFrom(l, lead);
            RunFrom(l, lead + BothComeUp(first, second)) ==
            Next(Next(Next(Next(m, SubscribeSettles(first, true)), SnapshotSettles(second, true)),
                      SubscribeSettles(second, true)), Stop)
  {
    var a1 := lead + [SubscribeSettles(first, true)];
    var a2 := a1 + [SnapshotSettles(second, true)];
    var a3 := a2 + [SubscribeSettles(second, true)];
    OneMore(l, lead, SubscribeSettles(first, true));
    OneMore(l, a1, SnapshotSettles(second, true));
    OneMore(l, a2, SubscribeSettles(second, true));
    OneMore(l, a3, Stop);
    assert a3 + [Stop] == lead + BothComeUp(first, second);
  }

  /** What the connection from before the stop still has to do before it subscribes. */
  function LeadIn(id: nat, phase: Phase): seq<Action> {
    if phase == Snapshotting then [SnapshotSettles(id, true)] else []
  }

  lemma LeadInRun(l: Link, id: nat)
    requires id in l.connects && l.running
    ensures RunFrom(l, LeadIn(id, l.connects[id])) == l.(connects := l.connects[id := Subscribing])
  {
    if l.connects[id] == Snapshotting {
      OneMore(l, [], SnapshotSettles(id, true));
      assert [] + [SnapshotSettles(id, true)] == LeadIn(id, Snapshotting);
    }
  }

  /**
   Restarting while a `connect()` from before the stop is still in progress, in either of
   its phases, loses a stream: both come up, the adapter remembers the second, and the next
   stop leaves the first one running.
   */
  lemma EarlyRestartLeaks(l: Link, id: nat)
    requires Inv(l) && !l.running && id in l.connects
    ensures var more := LeadIn(id, l.connects[id]) + BothComeUp(id, l.nextId);
            && SettledFrom(l.Start(), more)
            && !RunFrom(l.Start(), more).running && RunFrom(l.Start(), more).live == {id}
  {
    var s := l.Start();
    LeadInRun(s, id);
    BothComeUpRun(s, LeadIn(id, s.connects[id]), id, l.nextId);
  }

  /**
   When a restart is safe, exactly: after any history without an early restart, starting a
   stopped loader leaks no stream, whatever happens next, if and only if no `connect()` is
   in progress.
   */
  lemma RestartSafeExactly(actions: seq<Action>)
    requires Settled(actions) && !Run(actions).running
    ensures NothingLeaks(Run(actions).Start()) <==> Run(actions).connects == map[]
  {
    RunInv(actions);
    var l := Run(actions);
    if l.connects == map[] {
      InvStep(l, Start);
      forall more | SettledFrom(l.Start(), more)
        ensures !RunFrom(l.Start(), more).running ==> RunFrom(l.Start(), more).live == {}
      {
        InvFrom(l.Start(), more);
      }
    } else {
      var id :| id in l.connects;
      EarlyRestartLeaks(l, id);
    }
  }

  /** Both phases do occur: stopping right after the start, and stopping while subscribing. */
  lemma EarlyRestartsOccur()
    ensures Settled([Start, Stop]) && !Run([Start, Stop]).running
    ensures Run([Start, Stop]).connects == map[0 := Snapshotting]
    ensures var actions := [Start, SnapshotSettles(0, true), Stop];
            Settled(actions) && !Run(actions).running && Run(actions).connects == map[0 := Subscribing]
  {
    OneMore(NewLink, [], Start);
    OneMore(NewLink, [Start], Stop);
    OneMore(NewLink, [Start], SnapshotSettles(0, true));
    OneMore(NewLink, [Start, SnapshotSettles(0, true)], Stop);
    assert [] + [Start] == [Start] && [Start] + [Stop] == [Start, Stop];
    assert [Start] + [SnapshotSettles(0, true)] == [Start, SnapshotSettles(0, true)];
    assert [Start, SnapshotSettles(0, true)] + [Stop] == [Start, SnapshotSettles(0, true), Stop];
  }
}
