/** The bounded queue between the account stream and its listeners: drop oldest, deliver in order. */
module StreamQueue {
  import opened Prelude

  type Update = nat

  const DEFAULT_DROP_QUEUE_MAX := 10_000

  /** `parseInt(env, 10) || DEFAULT`: unset, malformed and 0 give the default; negatives pass. */
  function ResolveDropQueueMax(parsed: Num): int {
    if parsed.NonFinite? || parsed.v == 0 then DEFAULT_DROP_QUEUE_MAX else parsed.v
  }

  datatype Loader = Loader(
    running: bool, queue: seq<Update>, draining: bool,
    eventsReceived: nat, eventsDropped: nat, delivered: seq<Update>)
  {
    function Enqueue(cap: int, u: Update): Loader {
      if !running then this
      else
        var full := |queue| >= cap;
        this.(eventsReceived := eventsReceived + 1,
              eventsDropped := if full then eventsDropped + 1 else eventsDropped,
              queue := (if full && queue != [] then queue[1..] else queue) + [u],
              draining := true)
    }

    /** One turn of the drain loop. */
    function DrainOne(): Loader {
      if !draining || queue == [] then this
      else this.(delivered := delivered + [queue[0]], queue := queue[1..])
    }

    /** The drain loop found the queue empty. */
    function DrainEnd(): Loader {
      if draining && queue == [] then this.(draining := false) else this
    }
  }

  const NewLoader := Loader(false, [], false, 0, 0, [])

  /** `AccountLoader`, its queue side. `delivered` stands for what the listeners were called with. */
  class AccountLoader {
    const dropQueueMax: int
    var running: bool
    var queue: seq<Update>
    var draining: bool
    var eventsReceived: nat
    var eventsDropped: nat
    var delivered: seq<Update>

    function View(): Loader
      reads this
    {
      Loader(running, queue, draining, eventsReceived, eventsDropped, delivered)
    }

    constructor (parsed: Num)
      ensures dropQueueMax == ResolveDropQueueMax(parsed) && View() == NewLoader
    {
      dropQueueMax := if parsed.NonFinite? || parsed.v == 0 then DEFAULT_DROP_QUEUE_MAX else parsed.v;
      running, queue, draining, eventsReceived, eventsDropped, delivered := false, [], false, 0, 0, [];
    }

    method Enqueue(update: Update)
      modifies this
      ensures View() == old(View()).Enqueue(dropQueueMax, update)
    {
      if !running {
        return;
      }
      eventsReceived := eventsReceived + 1;
      if |queue| >= dropQueueMax {
        if queue != [] {
          queue := queue[1..];
        }
        eventsDropped := eventsDropped + 1;
      }
      queue := queue + [update];
      if !draining {
        draining := true;
      }
    }

    /** The scheduled microtask: everything waiting is delivered, oldest first. */
    method Drain()
      requires draining
      modifies this
      ensures View() == old(View()).(delivered := old(delivered) + old(queue), queue := [], draining := false)
    {
      assert delivered + queue == old(delivered) + old(queue);
      while queue != []
        invariant delivered + queue == old(delivered) + old(queue)
        invariant View() == old(View()).(delivered := delivered, queue := queue)
      {
        var update := queue[0];
        assert queue == [update] + queue[1..];
        queue := queue[1..];
        delivered := delivered + [update];
      }
      assert delivered + [] == delivered;
      draining := false;
    }
  }

  // ---------- every interleaving of arrivals and drain turns ----------

  datatype Action = Start | Stop | Push(u: Update) | DrainOne | DrainEnd

  datatype Fate = Delivered | Dropped

  /** A removal from the head of the queue. */
  datatype Removal = Removal(u: Update, fate: Fate)

  /** The loader with its history: accepted arrivals, and removals in the order they happened. */
  datatype World = World(loader: Loader, arrivals: seq<Update>, removals: seq<Removal>)

  function Next(cap: int, w: World, a: Action): World {
    var l := w.loader;
    match a
    case Start => w.(loader := l.(running := true))
    case Stop => w.(loader := l.(running := false))
    case Push(u) =>
      if !l.running then w
      else
        World(l.Enqueue(cap, u), w.arrivals + [u],
              if |l.queue| >= cap && l.queue != [] then w.removals + [Removal(l.queue[0], Dropped)] else w.removals)
    case DrainOne =>
      if !l.draining || l.queue == [] then w
      else w.(loader := l.DrainOne(), removals := w.removals + [Removal(l.queue[0], Delivered)])
    case DrainEnd => w.(loader := l.DrainEnd())
  }

  function Run(cap: int, actions: seq<Action>): World {
    if actions == [] then World(NewLoader, [], [])
    else Next(cap, Run(cap, actions[..|actions| - 1]), actions[|actions| - 1])
  }

  function Removed(rs: seq<Removal>): seq<Update> {
    if rs == [] then [] else Removed(rs[..|rs| - 1]) + [rs[|rs| - 1].u]
  }

  function With(rs: seq<Removal>, fate: Fate): seq<Update> {
    if rs == [] then []
    else With(rs[..|rs| - 1], fate) + if rs[|rs| - 1].fate == fate then [rs[|rs| - 1].u] else []
  }

  /** Removals so far followed by the queue are the arrivals, in order: nothing is lost, doubled or overtaken. */
  ghost predicate Inv(cap: int, w: World) {
    var l := w.loader;
    && w.arrivals == Removed(w.removals) + l.queue
    && l.delivered == With(w.removals, Delivered)
    && l.eventsReceived == |w.arrivals|
    && (l.queue != [] ==> l.draining)
    && |l.queue| <= Max(1, cap)
    && (cap >= 1 ==> l.eventsDropped == |With(w.removals, Dropped)|)
    && (cap < 1 ==> l.eventsDropped == l.eventsReceived)
  }

  lemma RemovalStep(rs: seq<Removal>, r: Removal)
    ensures Removed(rs + [r]) == Removed(rs) + [r.u]
    ensures With(rs + [r], r.fate) == With(rs, r.fate) + [r.u]
    ensures forall other :: other != r.fate ==> With(rs + [r], other) == With(rs, other)
  {
    assert (rs + [r])[..|rs|] == rs;
  }

  lemma HeadMoves(removed: seq<Update>, queue: seq<Update>, more: seq<Update>)
    requires queue != []
    ensures (removed + queue) + more == (removed + [queue[0]]) + (queue[1..] + more)
  {
    assert queue == [queue[0]] + queue[1..];
  }

  lemma PushKeeps(cap: int, w: World, u: Update)
    requires Inv(cap, w) && w.loader.running
    ensures Inv(cap, Next(cap, w, Push(u)))
  {
    var l := w.loader;
    if |l.queue| >= cap && l.queue != [] {
      RemovalStep(w.removals, Removal(l.queue[0], Dropped));
      HeadMoves(Removed(w.removals), l.queue, [u]);
    } else {
      assert (Removed(w.removals) + l.queue) + [u] == Removed(w.removals) + (l.queue + [u]);
    }
  }

  lemma DrainKeeps(cap: int, w: World)
    requires Inv(cap, w) && w.loader.draining && w.loader.queue != []
    ensures Inv(cap, Next(cap, w, DrainOne))
  {
    var l := w.loader;
    RemovalStep(w.removals, Removal(l.queue[0], Delivered));
    HeadMoves(Removed(w.removals), l.queue, []);
    assert l.queue[1..] + [] == l.queue[1..] && w.arrivals + [] == w.arrivals;
  }

  lemma InvStep(cap: int, w: World, a: Action)
    requires Inv(cap, w)
    ensures Inv(cap, Next(cap, w, a))
  {
    match a
    case Push(u) => if w.loader.running { PushKeeps(cap, w, u); }
    case DrainOne => if w.loader.draining && w.loader.queue != [] { DrainKeeps(cap, w); }
    case Start =>
    case Stop =>
    case DrainEnd =>
  }

  lemma {:induction false} RunInv(cap: int, actions: seq<Action>)
    ensures Inv(cap, Run(cap, actions))
  {
    if actions != [] {
      RunInv(cap, actions[..|actions| - 1]);
      InvStep(cap, Run(cap, actions[..|actions| - 1]), actions[|actions| - 1]);
    }
  }

  /**
   Every accepted update leaves the queue once, in arrival order, either delivered or
   dropped; the listeners have seen exactly the delivered ones; what is left is queued,
   within the bound, and a drain is on its way.
   */
  lemma FirstInFirstOut(cap: int, actions: seq<Action>)
    ensures var w := Run(cap, actions);
            && w.arrivals == Removed(w.removals) + w.loader.queue
            && w.loader.delivered == With(w.removals, Delivered)
            && |w.loader.queue| <= Max(1, cap)
            && (w.loader.queue != [] ==> w.loader.draining)
  {
    RunInv(cap, actions);
  }

  ghost predicate Conserved(l: Loader) {
    l.eventsReceived == |l.delivered| + l.eventsDropped + |l.queue|
  }

  lemma {:induction false} RemovalsSplit(rs: seq<Removal>)
    ensures |Removed(rs)| == |With(rs, Delivered)| + |With(rs, Dropped)|
  {
    if rs != [] { RemovalsSplit(rs[..|rs| - 1]); }
  }

  lemma ConservedWhenBounded(cap: int, actions: seq<Action>)
    requires cap >= 1
    ensures Conserved(Run(cap, actions).loader)
  {
    RunInv(cap, actions);
    RemovalsSplit(Run(cap, actions).removals);
  }

  /** The counters balance in every run exactly when the bound is at least 1. */
  lemma ConservationExactly(cap: int)
    ensures (forall actions :: Conserved(Run(cap, actions).loader)) <==> cap >= 1
  {
    if cap >= 1 {
      forall actions ensures Conserved(Run(cap, actions).loader) {
        ConservedWhenBounded(cap, actions);
      }
    } else {
      NegativeBoundMiscounts(cap, [Start, Push(0)]);
      assert [Start, Push(0)][..1] == [Start];
      assert [Start][..0] == [];
      assert Run(cap, [Start]).loader.running;
      assert Run(cap, [Start, Push(0)]).loader.eventsReceived == 1;
      assert !Conserved(Run(cap, [Start, Push(0)]).loader);
    }
  }

  /** So they balance in every run exactly when the setting is not negative; unset, malformed or 0 it is 10 000. */
  lemma SettingExactly(parsed: Num)
    ensures (forall actions :: Conserved(Run(ResolveDropQueueMax(parsed), actions).loader)) <==>
            !(parsed.Finite? && parsed.v < 0)
    ensures parsed.NonFinite? || parsed.v == 0 ==> ResolveDropQueueMax(parsed) == 10_000
    ensures parsed.Finite? && parsed.v != 0 ==> ResolveDropQueueMax(parsed) == parsed.v
  {
    ConservationExactly(ResolveDropQueueMax(parsed));
  }

  /** With a negative bound, every arrival is also counted as a drop, though none need be lost. */
  lemma {:induction false} NegativeBoundMiscounts(cap: int, actions: seq<Action>)
    requires cap < 1
    ensures var l := Run(cap, actions).loader;
            && l.eventsDropped == l.eventsReceived
            && (Conserved(l) <==> l.delivered == [] && l.queue == [])
  {
    RunInv(cap, actions);
  }

  function PushAll(cap: int, w: World, us: seq<Update>): World {
    if us == [] then w else Next(cap, PushAll(cap, w, us[..|us| - 1]), Push(us[|us| - 1]))
  }

  /** The last n entries. */
  function Newest(us: seq<Update>, n: nat): seq<Update> {
    if |us| <= n then us else us[|us| - n..]
  }

  /** A burst with no drain in between leaves exactly the newest updates. */
  lemma {:induction false} BurstKeepsNewest(cap: int, w: World, us: seq<Update>)
    requires cap >= 1 && w.loader.running && w.loader.queue == []
    ensures var n := PushAll(cap, w, us); n.loader.running && n.loader.queue == Newest(us, cap)
  {
    if us != [] {
      var before, u := us[..|us| - 1], us[|us| - 1];
      BurstKeepsNewest(cap, w, before);
      BurstStep(cap, PushAll(cap, w, before), before, u);
      assert us == before + [u];
    }
  }

  lemma BurstStep(cap: int, w: World, us: seq<Update>, u: Update)
    requires cap >= 1 && w.loader.running && w.loader.queue == Newest(us, cap)
    ensures var n := Next(cap, w, Push(u)); n.loader.running && n.loader.queue == Newest(us + [u], cap)
  {
    NewestStep(us, cap, u);
  }

  lemma NewestStep(us: seq<Update>, n: nat, u: Update)
    requires n >= 1
    ensures var q := Newest(us, n); Newest(us + [u], n) == (if |q| >= n then q[1..] else q) + [u]
  {
    if |us| >= n {
      var k := |us| - n;
      assert us[k..][1..] == us[k + 1..];
      assert (us + [u])[k + 1..] == us[k + 1..] + [u];
      assert us[0..] == us;
    }
  }
}
