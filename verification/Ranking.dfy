/** Sorting by a key, as `Array.prototype.sort` with a comparator does: stable. */
module Ranking {

  datatype Keyed<+T> = Keyed(key: int, item: T)

  function Insert<T>(x: Keyed<T>, s: seq<Keyed<T>>): seq<Keyed<T>> {
    if s == [] || x.key <= s[0].key then [x] + s else [s[0]] + Insert(x, s[1..])
  }

  function Sort<T>(s: seq<Keyed<T>>): seq<Keyed<T>> {
    if s == [] then [] else Insert(s[0], Sort(s[1..]))
  }

  ghost predicate Ascending<T>(s: seq<Keyed<T>>) {
    forall i, j :: 0 <= i < j < |s| ==> s[i].key <= s[j].key
  }

  ghost predicate DistinctKeys<T>(s: seq<Keyed<T>>) {
    forall i, j :: 0 <= i < j < |s| ==> s[i].key != s[j].key
  }

  lemma {:induction false} InsertSorted<T>(x: Keyed<T>, s: seq<Keyed<T>>)
    requires Ascending(s)
    ensures Ascending(Insert(x, s)) && multiset(Insert(x, s)) == multiset(s) + multiset{x}
  {
    if s == [] || x.key <= s[0].key {
    } else {
      InsertSorted(x, s[1..]);
      var r := Insert(x, s[1..]);
      assert s == [s[0]] + s[1..];
      forall j | 0 <= j < |r| ensures s[0].key <= r[j].key {
        assert r[j] in multiset(r);
        assert r[j] == x || r[j] in s[1..];
      }
      Prepended(s[0], r);
    }
  }

  lemma Prepended<T>(head: Keyed<T>, r: seq<Keyed<T>>)
    requires Ascending(r) && forall j :: 0 <= j < |r| ==> head.key <= r[j].key
    ensures Ascending([head] + r) && multiset([head] + r) == multiset{head} + multiset(r)
  {
  }

  lemma {:induction false} SortSorts<T>(s: seq<Keyed<T>>)
    ensures Ascending(Sort(s)) && multiset(Sort(s)) == multiset(s)
  {
    if s != [] {
      SortSorts(s[1..]);
      InsertSorted(s[0], Sort(s[1..]));
      assert s == [s[0]] + s[1..];
    }
  }

  /** Two ascending arrangements of the same distinctly keyed entries are the same. */
  lemma {:induction false} SortedIsUnique<T>(a: seq<Keyed<T>>, b: seq<Keyed<T>>)
    requires Ascending(a) && Ascending(b) && multiset(a) == multiset(b) && DistinctKeys(a)
    ensures a == b
  {
    if a == [] {
      assert |multiset(b)| == 0;
    } else {
      SameHead(a, b);
      SameTail(a, b);
      SortedIsUnique(a[1..], b[1..]);
    }
  }

  lemma SameHead<T>(a: seq<Keyed<T>>, b: seq<Keyed<T>>)
    requires Ascending(a) && Ascending(b) && multiset(a) == multiset(b) && DistinctKeys(a) && a != []
    ensures b != [] && a[0] == b[0]
  {
    assert |multiset(a)| == |multiset(b)|;
    assert a[0] in multiset(b) && b[0] in multiset(a);
    var i :| 0 <= i < |b| && b[i] == a[0];
    var j :| 0 <= j < |a| && a[j] == b[0];
    assert a[0].key <= a[j].key && b[0].key <= b[i].key;
    assert j == 0;
  }

  lemma SameTail<T>(a: seq<Keyed<T>>, b: seq<Keyed<T>>)
    requires multiset(a) == multiset(b) && a != [] && b != [] && a[0] == b[0]
    ensures multiset(a[1..]) == multiset(b[1..])
  {
    assert a == [a[0]] + a[1..] && b == [b[0]] + b[1..];
    assert multiset(a[1..]) == multiset(a) - multiset{a[0]};
    assert multiset(b[1..]) == multiset(b) - multiset{b[0]};
  }

  /** The order a scan rotates over does not depend on the order the RPC returned. */
  lemma SortForgetsOrder<T>(a: seq<Keyed<T>>, b: seq<Keyed<T>>)
    requires multiset(a) == multiset(b) && DistinctKeys(Sort(a))
    ensures Sort(a) == Sort(b)
  {
    SortSorts(a);
    SortSorts(b);
    SortedIsUnique(Sort(a), Sort(b));
  }

  /** `sort` by descending deficit, then `slice(0, cap)`: keys are negated deficits. */
  function Top<T>(s: seq<Keyed<T>>, cap: nat): seq<Keyed<T>> {
    var sorted := Sort(s);
    if |sorted| <= cap then sorted else sorted[..cap]
  }

  /** The entries with one key, in their order. */
  function OfKey<T>(s: seq<Keyed<T>>, key: int): seq<Keyed<T>> {
    if s == [] then [] else (if s[0].key == key then [s[0]] else []) + OfKey(s[1..], key)
  }

  lemma {:induction false} InsertIsStable<T>(x: Keyed<T>, s: seq<Keyed<T>>, key: int)
    ensures OfKey(Insert(x, s), key) == (if x.key == key then [x] else []) + OfKey(s, key)
  {
    if s == [] || x.key <= s[0].key {
      assert ([x] + s)[1..] == s;
    } else {
      var rest := OfKey(s[1..], key);
      InsertIsStable(x, s[1..], key);
      assert Insert(x, s)[1..] == Insert(x, s[1..]);
      assert x.key != key || s[0].key != key;
      assert [] + rest == rest;
    }
  }

  /** The sort is stable: entries with equal keys keep their order. */
  lemma {:induction false} SortIsStable<T>(s: seq<Keyed<T>>, key: int)
    ensures OfKey(Sort(s), key) == OfKey(s, key)
  {
    if s != [] {
      SortIsStable(s[1..], key);
      InsertIsStable(s[0], Sort(s[1..]), key);
    }
  }

  /** The cap drops only candidates that rank no higher than every kept one, and keeps the others in rank order. */
  lemma TopKeepsTheUrgent<T>(s: seq<Keyed<T>>, cap: nat) returns (dropped: seq<Keyed<T>>)
    ensures multiset(Top(s, cap)) + multiset(dropped) == multiset(s)
    ensures |Top(s, cap)| == if |s| <= cap then |s| else cap
    ensures forall k, d :: k in Top(s, cap) && d in dropped ==> k.key <= d.key
    ensures Ascending(Top(s, cap))
  {
    SortSorts(s);
    var sorted := Sort(s);
    assert |multiset(sorted)| == |multiset(s)|;
    if |sorted| <= cap {
      dropped := [];
    } else {
      dropped := sorted[cap..];
      assert sorted == sorted[..cap] + sorted[cap..];
    }
  }
}
