/** Time-stamped logs and the queues that keep their recent end. */
module Events {

  datatype Stamped<+T> = Stamped(ts: int, what: T)

  function Sum(q: seq<Stamped<int>>): int {
    if q == [] then 0 else q[0].what + Sum(q[1..])
  }

  function Count<T(==)>(q: seq<Stamped<T>>, v: T): nat {
    if q == [] then 0 else (if q[0].what == v then 1 else 0) + Count(q[1..], v)
  }

  /** The queue after every expired event at its head was shifted off. */
  function DropExpired<T>(q: seq<Stamped<T>>, cutoff: int): seq<Stamped<T>> {
    if q != [] && q[0].ts < cutoff then DropExpired(q[1..], cutoff) else q
  }

  /** The events stamped at or after `from`. */
  function Since<T>(q: seq<Stamped<T>>, from: int): seq<Stamped<T>> {
    if q == [] then []
    else (if from <= q[0].ts then [q[0]] else []) + Since(q[1..], from)
  }

  /** The events stamped in [from, to). */
  function Within<T>(q: seq<Stamped<T>>, from: int, to: int): seq<Stamped<T>> {
    if q == [] then []
    else (if from <= q[0].ts < to then [q[0]] else []) + Within(q[1..], from, to)
  }

  ghost predicate Sorted<T>(q: seq<Stamped<T>>) {
    forall i, j :: 0 <= i < j < |q| ==> q[i].ts <= q[j].ts
  }

  ghost predicate UpTo<T>(q: seq<Stamped<T>>, t: int) {
    forall i :: 0 <= i < |q| ==> q[i].ts <= t
  }

  ghost predicate NonNegative(q: seq<Stamped<int>>) {
    forall i :: 0 <= i < |q| ==> q[i].what >= 0
  }

  lemma {:induction false} SumAppend(a: seq<Stamped<int>>, b: seq<Stamped<int>>)
    ensures Sum(a + b) == Sum(a) + Sum(b)
  {
    if a == [] {
      assert a + b == b;
    } else {
      assert (a + b)[1..] == a[1..] + b;
      SumAppend(a[1..], b);
    }
  }

  lemma {:induction false} CountAppend<T>(a: seq<Stamped<T>>, b: seq<Stamped<T>>, v: T)
    ensures Count(a + b, v) == Count(a, v) + Count(b, v)
  {
    if a == [] {
      assert a + b == b;
    } else {
      assert (a + b)[1..] == a[1..] + b;
      CountAppend(a[1..], b, v);
    }
  }

  lemma {:induction false} WithinAppend<T>(a: seq<Stamped<T>>, b: seq<Stamped<T>>, from: int, to: int)
    ensures Within(a + b, from, to) == Within(a, from, to) + Within(b, from, to)
  {
    if a == [] {
      assert a + b == b;
    } else {
      assert (a + b)[1..] == a[1..] + b;
      WithinAppend(a[1..], b, from, to);
    }
  }

  lemma {:induction false} SumNonNegative(q: seq<Stamped<int>>)
    requires NonNegative(q)
    ensures Sum(q) >= 0
  {
    if q != [] { SumNonNegative(q[1..]); }
  }

  /** What is kept is a suffix, and it is worth no more than the whole. */
  lemma {:induction false} DropIsSuffix<T>(q: seq<Stamped<T>>, cutoff: int)
    ensures var k := DropExpired(q, cutoff); |k| <= |q| && k == q[|q| - |k|..]
  {
    if q != [] && q[0].ts < cutoff { DropIsSuffix(q[1..], cutoff); }
  }

  lemma {:induction false} DropShrinks(q: seq<Stamped<int>>, cutoff: int)
    requires NonNegative(q)
    ensures NonNegative(DropExpired(q, cutoff))
    ensures 0 <= Sum(DropExpired(q, cutoff)) <= Sum(q)
  {
    if q != [] && q[0].ts < cutoff { DropShrinks(q[1..], cutoff); } else { SumNonNegative(q); }
  }

  /** Pruning early, then appending and pruning again, prunes the whole log. */
  lemma {:induction false} DropDrop<T>(q: seq<Stamped<T>>, more: seq<Stamped<T>>, c1: int, c2: int)
    requires c1 <= c2
    ensures DropExpired(DropExpired(q, c1) + more, c2) == DropExpired(q + more, c2)
  {
    if q != [] && q[0].ts < c1 {
      assert (q + more)[1..] == q[1..] + more;
      DropDrop(q[1..], more, c1, c2);
    }
  }

  lemma DropAgain<T>(q: seq<Stamped<T>>, c1: int, c2: int)
    requires c1 <= c2
    ensures DropExpired(DropExpired(q, c1), c2) == DropExpired(q, c2)
  {
    DropDrop(q, [], c1, c2);
    assert q + [] == q && DropExpired(q, c1) + [] == DropExpired(q, c1);
  }

  /** On a sorted log, shifting the head keeps exactly the unexpired events. */
  lemma {:induction false} DropIsSince<T>(q: seq<Stamped<T>>, cutoff: int)
    requires Sorted(q)
    ensures DropExpired(q, cutoff) == Since(q, cutoff)
  {
    if q != [] && q[0].ts < cutoff {
      DropIsSince(q[1..], cutoff);
    } else {
      SinceAll(q, cutoff);
    }
  }

  lemma {:induction false} SinceAll<T>(q: seq<Stamped<T>>, cutoff: int)
    requires forall i :: 0 <= i < |q| ==> cutoff <= q[i].ts
    ensures Since(q, cutoff) == q
  {
    if q != [] { SinceAll(q[1..], cutoff); }
  }

  lemma {:induction false} WithinIsSince<T>(q: seq<Stamped<T>>, from: int, to: int)
    requires UpTo(q, to - 1)
    ensures Within(q, from, to) == Since(q, from)
  {
    if q != [] { WithinIsSince(q[1..], from, to); }
  }

  lemma {:induction false} WithinNone<T>(q: seq<Stamped<T>>, from: int, to: int)
    requires forall i :: 0 <= i < |q| ==> q[i].ts < from || to <= q[i].ts
    ensures Within(q, from, to) == []
  {
    if q != [] { WithinNone(q[1..], from, to); }
  }

  /** An event outside the interval adds nothing to it. */
  lemma WithinSkips<T>(q: seq<Stamped<T>>, e: Stamped<T>, from: int, to: int)
    requires e.ts < from || to <= e.ts
    ensures Within(q + [e], from, to) == Within(q, from, to)
  {
    WithinAppend(q, [e], from, to);
    WithinNone([e], from, to);
    assert Within(q, from, to) + [] == Within(q, from, to);
  }

  /** A wider interval is worth at least as much. */
  lemma {:induction false} WithinMonotone(q: seq<Stamped<int>>, f1: int, t1: int, f2: int, t2: int)
    requires NonNegative(q) && f2 <= f1
    requires forall i :: 0 <= i < |q| && f1 <= q[i].ts < t1 ==> q[i].ts < t2
    ensures 0 <= Sum(Within(q, f1, t1)) <= Sum(Within(q, f2, t2))
  {
    if q != [] {
      WithinMonotone(q[1..], f1, t1, f2, t2);
      var a := if f1 <= q[0].ts < t1 then [q[0]] else [];
      var b := if f2 <= q[0].ts < t2 then [q[0]] else [];
      SumAppend(a, Within(q[1..], f1, t1));
      SumAppend(b, Within(q[1..], f2, t2));
    }
  }

  lemma {:induction false} WithinSplit(q: seq<Stamped<int>>, from: int, mid: int, to: int)
    requires from <= mid <= to
    ensures Sum(Within(q, from, to)) == Sum(Within(q, from, mid)) + Sum(Within(q, mid, to))
  {
    if q != [] {
      WithinSplit(q[1..], from, mid, to);
      SumAppend(if from <= q[0].ts < to then [q[0]] else [], Within(q[1..], from, to));
      SumAppend(if from <= q[0].ts < mid then [q[0]] else [], Within(q[1..], from, mid));
      SumAppend(if mid <= q[0].ts < to then [q[0]] else [], Within(q[1..], mid, to));
    }
  }
}
