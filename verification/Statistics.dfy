/** Nearest-rank percentiles, and the event-loop pressure they report, in exact arithmetic. */
module Statistics {
  import opened Wrappers

  const RUNTIME_MAX_EVENT_LOOP_P99_MS := 50
  const EVENT_LOOP_P99_MIN_SAMPLES := 100
  const EVENT_LOOP_P99_WINDOW_SAMPLES := 1_000
  const RAW_WALL_LAG_WARNING_MS := 50
  const RAW_WALL_LAG_CEILING_MS := 250
  const RAW_WALL_LAG_MAX_BREACHES := 3

  // ---------- order statistics ----------

  /** How many values exceed a bound. */
  function Above(s: seq<int>, bound: int): (n: nat)
    ensures n <= |s|
  {
    if s == [] then 0 else Above(s[..|s| - 1], bound) + (if s[|s| - 1] > bound then 1 else 0)
  }

  predicate Ordered(s: seq<int>)
  {
    forall i, j | 0 <= i < j < |s| :: s[i] <= s[j]
  }

  function Insert(s: seq<int>, v: int): seq<int>
  {
    if s == [] || s[|s| - 1] <= v then s + [v] else Insert(s[..|s| - 1], v) + [s[|s| - 1]]
  }

  function Sorted(s: seq<int>): seq<int>
  {
    if s == [] then [] else Insert(Sorted(s[..|s| - 1]), s[|s| - 1])
  }

  lemma AboveAppend(s: seq<int>, v: int, bound: int)
    ensures Above(s + [v], bound) == Above(s, bound) + (if v > bound then 1 else 0)
  {
    assert (s + [v])[..|s|] == s;
  }

  lemma {:induction false} InsertCounts(s: seq<int>, v: int, bound: int)
    ensures |Insert(s, v)| == |s| + 1
    ensures Above(Insert(s, v), bound) == Above(s, bound) + (if v > bound then 1 else 0)
    ensures forall x :: x in Insert(s, v) ==> x == v || x in s
  {
    if s == [] || s[|s| - 1] <= v {
      AboveAppend(s, v, bound);
    } else {
      InsertCounts(s[..|s| - 1], v, bound);
      AboveAppend(Insert(s[..|s| - 1], v), s[|s| - 1], bound);
    }
  }

  lemma {:induction false} InsertOrders(s: seq<int>, v: int)
    requires Ordered(s)
    ensures Ordered(Insert(s, v))
  {
    if s != [] && s[|s| - 1] > v {
      var rest := s[..|s| - 1];
      InsertOrders(rest, v);
      InsertCounts(rest, v, 0);
      forall i | 0 <= i < |Insert(rest, v)| ensures Insert(rest, v)[i] <= s[|s| - 1] {
        assert Insert(rest, v)[i] in Insert(rest, v);
      }
    }
  }

  lemma {:induction false} SortedIsSorted(s: seq<int>, bound: int)
    ensures |Sorted(s)| == |s| && Ordered(Sorted(s)) && Above(Sorted(s), bound) == Above(s, bound)
  {
    if s != [] {
      SortedIsSorted(s[..|s| - 1], bound);
      InsertCounts(Sorted(s[..|s| - 1]), s[|s| - 1], bound);
      InsertOrders(Sorted(s[..|s| - 1]), s[|s| - 1]);
    }
  }

  /** In order, the values above a bound are the last ones. */
  lemma {:induction false} AboveAreLast(s: seq<int>, i: nat, bound: int)
    requires Ordered(s) && i < |s|
    ensures s[i] > bound <==> Above(s, bound) >= |s| - i
  {
    var last := |s| - 1;
    if i == last {
      if s[last] <= bound { NoneAbove(s, bound); }
    } else if s[last] > bound {
      AboveAreLast(s[..last], i, bound);
    } else {
      NoneAbove(s, bound);
    }
  }

  lemma {:induction false} NoneAbove(s: seq<int>, bound: int)
    requires forall i | 0 <= i < |s| :: s[i] <= bound
    ensures Above(s, bound) == 0
  {
    if s != [] { NoneAbove(s[..|s| - 1], bound); }
  }

  // ---------- percentiles ----------

  /** The nearest rank of a fraction num/den of n: its ceiling, and at least one. */
  function Rank(n: nat, num: nat, den: nat): (k: nat)
    requires 0 < num <= den && n > 0
    ensures 1 <= k <= n
  {
    CeilingBounds(n, num, den);
    (num * n + den - 1) / den
  }

  lemma CeilingBounds(n: nat, num: nat, den: nat)
    requires 0 < num <= den && n > 0
    ensures 1 <= (num * n + den - 1) / den <= n
  {
    var whole := num * n;
    assert whole <= den * n by { ProductsGrow(num, den, n); }
    assert whole >= 1 by { ProductsGrow(1, num, n); }
    DivisionBounds(whole + den - 1, den, n);
  }

  lemma ProductsGrow(a: nat, b: nat, n: nat)
    requires a <= b
    ensures a * n <= b * n
  {
  }

  lemma DivisionBounds(x: nat, d: nat, n: nat)
    requires d > 0 && d <= x < d * n + d
    ensures 1 <= x / d <= n
  {
    var q := x / d;
    assert d * q <= x < d * q + d;
    if q > n { ProductsGrow(n + 1, q, d); }
  }

  function Percentile(s: seq<int>, num: nat, den: nat): Option<int>
    requires 0 < num <= den
  {
    if s == [] then None
    else
      SortedIsSorted(s, 0);
      Some(Sorted(s)[Rank(|s|, num, den) - 1])
  }

  /** What a percentile means: it exceeds a bound exactly when enough of the values do. */
  lemma PercentileExceeds(s: seq<int>, num: nat, den: nat, bound: int)
    requires 0 < num <= den && s != []
    ensures Percentile(s, num, den).value > bound <==> Above(s, bound) >= |s| - Rank(|s|, num, den) + 1
  {
    SortedIsSorted(s, bound);
    AboveAreLast(Sorted(s), Rank(|s|, num, den) - 1, bound);
  }

  /** Order does not matter: a percentile depends only on how many values exceed each bound. */
  lemma PercentileIgnoresOrder(s: seq<int>, t: seq<int>, num: nat, den: nat)
    requires 0 < num <= den && multiset(s) == multiset(t)
    ensures Percentile(s, num, den) == Percentile(t, num, den)
  {
    assert |s| == |multiset(s)| == |multiset(t)| == |t|;
    if s != [] {
      var a, b := Percentile(s, num, den), Percentile(t, num, den);
      assert a.Some? && b.Some?;
      ExceedAlike(s, t, num, den, a.value);
      ExceedAlike(s, t, num, den, b.value);
      assert a.value == b.value;
    }
  }

  lemma ExceedAlike(s: seq<int>, t: seq<int>, num: nat, den: nat, bound: int)
    requires 0 < num <= den && s != [] && multiset(s) == multiset(t) && |s| == |t|
    ensures Percentile(s, num, den).value > bound <==> Percentile(t, num, den).value > bound
  {
    AboveIsAMultisetCount(s, t, bound);
    PercentileExceeds(s, num, den, bound);
    PercentileExceeds(t, num, den, bound);
  }

  lemma Without(t: seq<int>, v: int, bound: int) returns (u: seq<int>)
    requires v in t
    ensures multiset(u) == multiset(t) - multiset{v} && |u| == |t| - 1
    ensures Above(t, bound) == Above(u, bound) + (if v > bound then 1 else 0)
  {
    var j :| 0 <= j < |t| && t[j] == v;
    var a, b := t[..j], t[j + 1..];
    u := a + b;
    assert t == a + [v] + b;
    assert multiset(a + [v] + b) == multiset(a) + multiset{v} + multiset(b);
    AboveWithout(a, v, b, bound);
  }

  lemma {:induction false} AboveIsAMultisetCount(s: seq<int>, t: seq<int>, bound: int)
    requires multiset(s) == multiset(t)
    ensures Above(s, bound) == Above(t, bound)
    decreases |s|
  {
    if s == [] {
      assert |multiset(t)| == 0;
    } else {
      var v := s[0];
      assert v in multiset(s) && v in multiset(t);
      var s' := Without(s, v, bound);
      var t' := Without(t, v, bound);
      AboveIsAMultisetCount(s', t', bound);
    }
  }

  lemma {:induction false} AboveWithout(a: seq<int>, v: int, b: seq<int>, bound: int)
    ensures Above(a + [v] + b, bound) == Above(a + b, bound) + (if v > bound then 1 else 0)
    decreases |b|
  {
    if b == [] {
      assert a + [v] + b == a + [v] && a + b == a;
      AboveAppend(a, v, bound);
    } else {
      var c, x := b[..|b| - 1], b[|b| - 1];
      assert a + [v] + b == (a + [v] + c) + [x] && a + b == (a + c) + [x];
      AboveAppend(a + [v] + c, x, bound);
      AboveAppend(a + c, x, bound);
      AboveWithout(a, v, c, bound);
    }
  }

  // ---------- the ninety-ninth ----------

  function P99(s: seq<int>): Option<int>
  {
    Percentile(s, 99, 100)
  }

  /** Below a hundred samples the ninety-ninth percentile is the maximum: one large value moves it. */
  lemma P99IsTheMaximumBelowAHundred(s: seq<int>, bound: int)
    requires 0 < |s| < 100
    ensures P99(s).value > bound <==> exists i :: 0 <= i < |s| && s[i] > bound
  {
    PercentileExceeds(s, 99, 100, bound);
    assert Rank(|s|, 99, 100) == |s|;
    if forall i | 0 <= i < |s| :: s[i] <= bound { NoneAbove(s, bound); } else {
      var i :| 0 <= i < |s| && s[i] > bound;
      SomeAbove(s, i, bound);
    }
  }

  lemma {:induction false} SomeAbove(s: seq<int>, i: nat, bound: int)
    requires i < |s| && s[i] > bound
    ensures Above(s, bound) >= 1
  {
    if i < |s| - 1 { SomeAbove(s[..|s| - 1], i, bound); }
  }

  lemma RankFromAHundredOn(n: nat)
    requires n >= 100
    ensures n - Rank(n, 99, 100) + 1 >= 2 && Rank(n, 99, 100) >= 2
  {
  }

  /** `v` drawn into the span from `lo` to `hi`. */
  function Clamped(v: int, lo: int, hi: int): int
  {
    if v < lo then lo else if v > hi then hi else v
  }

  /** Drawn into the span between two neighbouring ranks, a value exceeds a bound exactly when enough of
      the others and it do. */
  lemma ClampedExceeds(others: seq<int>, k: nat, v: int, bound: int)
    requires Ordered(others) && 2 <= k <= |others|
    ensures Clamped(v, others[k - 2], others[k - 1]) > bound <==>
            Above(others, bound) + (if v > bound then 1 else 0) >= |others| - k + 2
  {
    AboveAreLast(others, k - 2, bound);
    AboveAreLast(others, k - 1, bound);
  }

  lemma ExceedsWithOneMore(before: seq<int>, v: int, after: seq<int>, num: nat, den: nat, k: nat, bound: int)
    requires 0 < num <= den && k == Rank(|before| + 1 + |after|, num, den)
    ensures Percentile(before + [v] + after, num, den).value > bound <==>
            Above(before + after, bound) + (if v > bound then 1 else 0) >= |before| + |after| - k + 2
  {
    PercentileExceeds(before + [v] + after, num, den, bound);
    AboveWithout(before, v, after, bound);
  }

  lemma ClampsAt(before: seq<int>, v: int, after: seq<int>, num: nat, den: nat, k: nat, bound: int)
    requires 0 < num <= den && k == Rank(|before| + 1 + |after|, num, den) && 2 <= k <= |before| + |after|
    ensures |Sorted(before + after)| == |before| + |after|
    ensures Percentile(before + [v] + after, num, den).value > bound <==>
            Clamped(v, Sorted(before + after)[k - 2], Sorted(before + after)[k - 1]) > bound
  {
    SortedIsSorted(before + after, bound);
    ClampedExceeds(Sorted(before + after), k, v, bound);
    ExceedsWithOneMore(before, v, after, num, den, k, bound);
  }

  /** A percentile whose rank is neither the first nor the last hardly moves for one value among the rest:
      it is that value drawn into the span between two neighbouring ranks of the others. */
  lemma OneValueIsClamped(before: seq<int>, v: int, after: seq<int>, num: nat, den: nat, k: nat)
    requires 0 < num <= den && k == Rank(|before| + 1 + |after|, num, den) && 2 <= k <= |before| + |after|
    ensures var others := Sorted(before + after);
      && |others| == |before| + |after| && others[k - 2] <= others[k - 1]
      && Percentile(before + [v] + after, num, den) == Some(Clamped(v, others[k - 2], others[k - 1]))
  {
    SortedIsSorted(before + after, 0);
    var others := Sorted(before + after);
    var p, c := Percentile(before + [v] + after, num, den), Clamped(v, others[k - 2], others[k - 1]);
    assert p.Some?;
    ClampsAt(before, v, after, num, den, k, p.value);
    ClampsAt(before, v, after, num, den, k, c);
    assert p.value == c;
  }

  /** From a hundred samples on no single value moves it beyond two neighbouring ranks of the others. */
  lemma NoOutlierMovesP99BeyondItsNeighbours(before: seq<int>, outlier: int, after: seq<int>)
    requires |before| + 1 + |after| >= 100
    ensures var others := Sorted(before + after); var k := Rank(|before| + 1 + |after|, 99, 100);
      && |others| == |before| + |after| && 2 <= k <= |others| && others[k - 2] <= others[k - 1]
      && P99(before + [outlier] + after) == Some(Clamped(outlier, others[k - 2], others[k - 1]))
  {
    RankFromAHundredOn(|before| + 1 + |after|);
    OneValueIsClamped(before, outlier, after, 99, 100, Rank(|before| + 1 + |after|, 99, 100));
  }

  /** In particular no single value, however large, can raise it above a bound that all the others keep
      to. */
  lemma NoOutlierMovesP99FromAHundredOn(before: seq<int>, outlier: int, after: seq<int>, bound: int)
    requires |before| + 1 + |after| >= 100 && Above(before + after, bound) == 0
    ensures P99(before + [outlier] + after).value <= bound
  {
    var s := before + [outlier] + after;
    PercentileExceeds(s, 99, 100, bound);
    AboveWithout(before, outlier, after, bound);
    RankFromAHundredOn(|s|);
  }
}
