/**
 The rotating window that bounds one scan: at most m of `total` entries per
 cycle, starting where the previous cycle stopped.
 */
module RotatingCursor {

  /** JavaScript `a % b` for b > 0: the sign of the dividend. */
  function JsRem(a: int, b: int): int
    requires b > 0
  {
    if a >= 0 then a % b else -((-a) % b)
  }

  /** `((cursor % total) + total) % total`: a stored cursor brought into range. */
  function StartOffset(cursor: int, total: int): (start: int)
    requires total > 0
    ensures 0 <= start < total
  {
    JsRem(JsRem(cursor, total) + total, total)
  }

  lemma MulNonNegative(a: int, b: int)
    requires a >= 0 && b >= 0
    ensures a * b >= 0
  {
  }

  lemma MulMonotone(a: int, b: int, n: int)
    requires n > 0
    ensures a <= b ==> a * n <= b * n
  {
    if a <= b {
      MulNonNegative(b - a, n);
      assert (b - a) * n == b * n - a * n;
    }
  }

  lemma ModUnique(a: int, n: int, q: int, r: int)
    requires n > 0 && 0 <= r < n && a == q * n + r
    ensures a % n == r
  {
    var k := a / n - q;
    assert a == (a / n) * n + a % n;
    assert k * n == r - a % n;
    MulMonotone(1, k, n);
    MulMonotone(k, -1, n);
  }

  lemma AddMultiple(x: int, n: int, q: int)
    requires n > 0
    ensures (x + q * n) % n == x % n
  {
    assert x == (x / n) * n + x % n;
    assert x + q * n == (x / n + q) * n + x % n;
    ModUnique(x + q * n, n, x / n + q, x % n);
  }

  /** The normalised start is the mathematical remainder, for negative cursors too. */
  lemma StartIsMod(cursor: int, total: int)
    requires total > 0
    ensures StartOffset(cursor, total) == cursor % total
  {
    var r := JsRem(cursor, total);
    assert (r + total) % total == cursor % total by {
      AddMultiple(r, total, 1);
      if cursor < 0 {
        var q := (-cursor) / total;
        assert -cursor == q * total + (-cursor) % total;
        assert r == cursor + q * total;
        AddMultiple(cursor, total, q);
      } else {
        ModUnique(r, total, 0, r);
      }
    }
  }

  /** The indices one cycle selects. */
  function Indices(total: nat, m: nat, cursor: int): seq<nat> {
    if total <= m then seq(total, i => i)
    else
      var start := StartOffset(cursor, total);
      seq(m, k requires 0 <= k < m => Slot(start, k, total))
  }

  /** Position k of a window that wraps around the end. */
  function Slot(start: nat, k: nat, total: nat): (slot: nat)
    requires total > 0
    ensures slot < total
  {
    (start + k) % total
  }

  /** The cursor it leaves; a list that fits resets it. */
  function NextCursor(total: nat, m: nat, cursor: int): nat {
    if total <= m then 0 else Slot(StartOffset(cursor, total), m, total)
  }

  function CursorAfter(total: nat, m: nat, cursor: int, cycles: nat): int {
    if cycles == 0 then cursor else NextCursor(total, m, CursorAfter(total, m, cursor, cycles - 1))
  }

  /** One selection never repeats an entry. */
  lemma NoDuplicates(total: nat, m: nat, cursor: int, i: nat, j: nat)
    requires i < j < |Indices(total, m, cursor)|
    ensures Indices(total, m, cursor)[i] != Indices(total, m, cursor)[j] < total
  {
    if total > m {
      var start := StartOffset(cursor, total);
      Wrap(start, i, total);
      Wrap(start, j, total);
    }
  }

  lemma Wrap(start: nat, k: nat, total: nat)
    requires start < total && k <= total
    ensures Slot(start, k, total) == if start + k < total then start + k else start + k - total
  {
    if start + k < total {
      ModUnique(start + k, total, 0, start + k);
    } else if start + k - total < total {
      ModUnique(start + k, total, 1, start + k - total);
    }
  }

  /** A selection starts at the cursor and goes round from there; a list that fits is taken from the front. */
  lemma InOrder(total: nat, m: nat, cursor: int, k: nat)
    requires k < |Indices(total, m, cursor)|
    ensures |Indices(total, m, cursor)| == if total <= m then total else m
    ensures Indices(total, m, cursor)[k] == if total <= m then k else (cursor + k) % total
    ensures NextCursor(total, m, cursor) == if total <= m then 0 else (cursor + m) % total
  {
    if total > m {
      StartIsMod(cursor, total);
      ModMod(cursor, k, total);
      ModMod(cursor, m, total);
    }
  }

  lemma ModMod(a: int, b: int, n: int)
    requires n > 0
    ensures (a % n + b) % n == (a + b) % n
  {
    AddMultiple(a % n + b, n, a / n);
    assert a % n + b + (a / n) * n == a + b;
  }

  /** After j cycles the window starts j * m entries further round. */
  lemma {:induction false} StartAfter(total: nat, m: nat, cursor: int, j: nat)
    requires total > m
    ensures StartOffset(CursorAfter(total, m, cursor, j), total) == (cursor + j * m) % total
  {
    StartIsMod(CursorAfter(total, m, cursor, j), total);
    if j == 0 {
    } else {
      StartAfter(total, m, cursor, j - 1);
      var before := cursor + (j - 1) * m;
      assert cursor + j * m == before + m;
      ModMod(before, m, total);
      ModMod(before + m, 0, total);
    }
  }

  /** After j cycles, position k of the selection is j * m + k entries further round. */
  lemma SelectedAt(total: nat, m: nat, cursor: int, j: nat, k: nat, gone: int, after: int)
    requires total > m > k && gone == j * m && after == CursorAfter(total, m, cursor, j)
    ensures |Indices(total, m, after)| == m && Indices(total, m, after)[k] == (cursor + gone + k) % total
  {
    StartAfter(total, m, cursor, j);
    ModMod(cursor + gone, k, total);
  }

  /**
   Coverage: for a fixed list, any ceil(total / m) consecutive cycles, from any
   stored cursor, select every index at least once.
   */
  lemma EveryIndexIsReached(total: nat, m: nat, cursor: int, idx: nat) returns (j: nat)
    requires m >= 1 && idx < total
    ensures j < (total + m - 1) / m
    ensures idx in Indices(total, m, CursorAfter(total, m, cursor, j))
  {
    if total <= m {
      j := 0;
      QuotientBelowCeiling(total, m, 0);
      ModUnique(0, m, 0, 0);
      assert Indices(total, m, cursor)[idx] == idx;
    } else {
      var k;
      j, k := RoundOf(total, m, (idx - cursor) % total);
      Distance(cursor, idx, total);
      SelectedAt(total, m, cursor, j, k, (idx - cursor) % total - k, CursorAfter(total, m, cursor, j));
    }
  }

  lemma RoundOf(total: nat, m: nat, d: nat) returns (j: nat, k: nat)
    requires m >= 1 && d < total
    ensures j < (total + m - 1) / m && k < m && k <= d && d - k == j * m
  {
    j, k := d / m, d % m;
    assert d == j * m + k;
    MulNonNegative(j, m);
    QuotientBelowCeiling(total, m, d);
  }

  lemma Distance(cursor: int, idx: nat, total: nat)
    requires idx < total
    ensures (cursor + (idx - cursor) % total) % total == idx
  {
    ModMod(idx - cursor, cursor, total);
    ModUnique(idx, total, 0, idx);
  }

  lemma QuotientBelowCeiling(total: nat, m: nat, d: nat)
    requires m >= 1 && d < total
    ensures d / m < (total + m - 1) / m
  {
    var j, q := d / m, (total + m - 1) / m;
    assert d == j * m + d % m;
    assert total + m - 1 == q * m + (total + m - 1) % m;
    MulMonotone(q, j, m);
  }

  /** The portfolio scan keeps one cursor per market and forgets it when the list fits. */
  class PortfolioScan {
    const cap: nat
    var cursors: map<string, int>

    constructor (cap: nat)
      ensures this.cap == cap && cursors == map[]
    {
      this.cap, cursors := cap, map[];
    }

    function Cursor(market: string): int
      reads this
    {
      if market in cursors then cursors[market] else 0
    }

    method SelectWindow<T>(market: string, ordered: seq<T>) returns (window: seq<T>)
      modifies this
      ensures var idx := Indices(|ordered|, cap, old(Cursor(market)));
              |window| == |idx| && forall k :: 0 <= k < |idx| ==> idx[k] < |ordered| && window[k] == ordered[idx[k]]
      ensures Cursor(market) == NextCursor(|ordered|, cap, old(Cursor(market)))
      ensures forall other :: other != market ==> Cursor(other) == old(Cursor(other))
    {
      var total := |ordered|;
      window := ordered;
      if total > cap {
        var startOffset := StartOffset(Cursor(market), total);
        var win: seq<T> := [];
        for k := 0 to cap
          invariant |win| == k
          invariant forall i :: 0 <= i < k ==> win[i] == ordered[Slot(startOffset, i, total)]
        {
          win := win + [ordered[Slot(startOffset, k, total)]];
        }
        window := win;
        cursors := cursors[market := Slot(startOffset, cap, total)];
      } else if market in cursors {
        cursors := cursors - {market};
      }
    }
  }

  /** The fraud detector keeps a single cursor. */
  class FraudRound {
    var marketCursor: int

    constructor ()
      ensures marketCursor == 0
    {
      marketCursor := 0;
    }

    method SelectMarkets<T>(entries: seq<T>, maxMarketsPerCycle: nat) returns (selected: seq<T>)
      requires maxMarketsPerCycle >= 1
      modifies this
      ensures var idx := Indices(|entries|, maxMarketsPerCycle, old(marketCursor));
              |selected| == |idx| && forall k :: 0 <= k < |idx| ==> idx[k] < |entries| && selected[k] == entries[idx[k]]
      ensures marketCursor == NextCursor(|entries|, maxMarketsPerCycle, old(marketCursor))
    {
      var totalMarkets := |entries|;
      if totalMarkets <= maxMarketsPerCycle {
        selected := entries;
        marketCursor := 0;
      } else {
        var start := StartOffset(marketCursor, totalMarkets);
        selected := [];
        for k := 0 to maxMarketsPerCycle
          invariant |selected| == k
          invariant forall i :: 0 <= i < k ==> selected[i] == entries[Slot(start, i, totalMarkets)]
        {
          selected := selected + [entries[Slot(start, k, totalMarkets)]];
        }
        marketCursor := Slot(start, maxMarketsPerCycle, totalMarkets);
      }
    }
  }
}
