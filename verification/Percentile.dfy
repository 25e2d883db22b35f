/** The 95th percentile of recorded durations. */
module Percentile {
  import opened Wrappers

  predicate Sorted(s: seq<int>) {
    forall i, j :: 0 <= i < j < |s| ==> s[i] <= s[j]
  }

  function Insert(v: int, s: seq<int>): (r: seq<int>)
    ensures multiset(r) == multiset(s) + multiset{v}
  {
    if s == [] then [v]
    else if v <= s[0] then [v] + s
    else
      assert s == [s[0]] + s[1..];
      [s[0]] + Insert(v, s[1..])
  }

  /** The library's sort. */
  function Sort(s: seq<int>): (r: seq<int>)
    ensures multiset(r) == multiset(s)
  {
    if s == [] then []
    else
      assert s == s[..|s| - 1] + [s[|s| - 1]];
      Insert(s[|s| - 1], Sort(s[..|s| - 1]))
  }

  lemma InsertedAtLeast(v: int, s: seq<int>, low: int)
    requires low <= v && forall i :: 0 <= i < |s| ==> low <= s[i]
    ensures forall i :: 0 <= i < |Insert(v, s)| ==> low <= Insert(v, s)[i]
  {
    hide Insert;
    var r := Insert(v, s);
    forall i | 0 <= i < |r| ensures low <= r[i] {
      assert r[i] in multiset(r);
      assert r[i] == v || r[i] in s;
    }
  }

  lemma SortedCons(v: int, s: seq<int>)
    requires Sorted(s) && forall i :: 0 <= i < |s| ==> v <= s[i]
    ensures Sorted([v] + s)
  {
  }

  lemma SortedRest(s: seq<int>)
    requires Sorted(s) && s != []
    ensures Sorted(s[1..]) && forall i :: 0 <= i < |s[1..]| ==> s[0] <= s[1..][i]
  {
  }

  lemma {:induction false} InsertSorts(v: int, s: seq<int>)
    requires Sorted(s)
    ensures Sorted(Insert(v, s))
  {
    if s != [] {
      SortedRest(s);
      if v > s[0] {
        hide Sorted;
        InsertSorts(v, s[1..]);
        InsertedAtLeast(v, s[1..], s[0]);
        SortedCons(s[0], Insert(v, s[1..]));
      } else {
        SortedCons(v, s);
      }
    }
  }

  lemma {:induction false} SortSorts(s: seq<int>)
    ensures Sorted(Sort(s))
  {
    if s != [] {
      SortSorts(s[..|s| - 1]);
      InsertSorts(s[|s| - 1], Sort(s[..|s| - 1]));
    }
  }

  /** How many durations are at most `v`. */
  function AtMost(s: seq<int>, v: int): (n: nat)
    ensures n <= |s|
  {
    if s == [] then 0 else AtMost(s[..|s| - 1], v) + if s[|s| - 1] <= v then 1 else 0
  }

  lemma {:induction false} AtMostSum(a: seq<int>, b: seq<int>, v: int)
    ensures AtMost(a + b, v) == AtMost(a, v) + AtMost(b, v)
  {
    if b == [] {
      assert a + b == a;
    } else {
      assert (a + b)[..|a + b| - 1] == a + b[..|b| - 1];
      AtMostSum(a, b[..|b| - 1], v);
    }
  }

  lemma RemoveAt(b: seq<int>, i: nat, v: int)
    requires i < |b|
    ensures AtMost(b, v) == AtMost(b[..i] + b[i + 1..], v) + if b[i] <= v then 1 else 0
    ensures multiset(b) == multiset(b[..i] + b[i + 1..]) + multiset{b[i]}
  {
    var left, right := b[..i], b[i + 1..];
    assert b == left + [b[i]] + right;
    AtMostSum(left + [b[i]], right, v);
    AtMostSum(left, [b[i]], v);
    AtMostSum(left, right, v);
    assert AtMost([b[i]], v) == AtMost([], v) + if b[i] <= v then 1 else 0;
  }

  /** The count does not depend on the order. */
  lemma {:induction false} AtMostPermuted(a: seq<int>, b: seq<int>, v: int)
    requires multiset(a) == multiset(b)
    ensures AtMost(a, v) == AtMost(b, v) && |a| == |b|
    decreases |a|
  {
    assert |a| == |multiset(a)| == |multiset(b)| == |b|;
    if a != [] {
      var n := |a| - 1;
      RemoveAt(a, n, v);
      assert a[..n] + a[n + 1..] == a[..n];
      assert a[n] in multiset(b);
      var i :| 0 <= i < |b| && b[i] == a[n];
      RemoveAt(b, i, v);
      hide AtMost;
      assert multiset(a[..n]) == multiset(a) - multiset{a[n]} == multiset(b[..i] + b[i + 1..]);
      AtMostPermuted(a[..n], b[..i] + b[i + 1..], v);
    }
  }

  lemma {:induction false} AtMostAll(s: seq<int>, v: int)
    requires forall i :: 0 <= i < |s| ==> s[i] <= v
    ensures AtMost(s, v) == |s|
  {
    if s != [] { AtMostAll(s[..|s| - 1], v); }
  }

  lemma {:induction false} AtMostNone(s: seq<int>, v: int)
    requires forall i :: 0 <= i < |s| ==> s[i] > v
    ensures AtMost(s, v) == 0
  {
    if s != [] { AtMostNone(s[..|s| - 1], v); }
  }

  /** At least 95 percent of the durations are at most `v`. */
  predicate Covers(s: seq<int>, v: int) {
    20 * AtMost(s, v) >= 19 * |s|
  }

  /** The nearest-rank percentile: the least recorded duration that covers. */
  predicate IsP95(s: seq<int>, v: int) {
    v in s && Covers(s, v) && forall w :: w in s && Covers(s, w) ==> v <= w
  }

  const ENOUGH := 5

  /** The rank, rounded up, as an index. */
  function Rank(n: nat): int {
    (19 * n + 19) / 20 - 1
  }

  lemma RankInRange(n: nat)
    requires n > 0
    ensures 0 <= Rank(n) < n
    ensures 20 * (Rank(n) + 1) >= 19 * n > 20 * Rank(n)
  {
  }

  /** Given at least five durations, the percentile is the least one that 95 percent stay within,
      and the index into the sorted durations is never out of range. */
  method P95(durations: seq<int>) returns (p95: Option<int>)
    ensures p95.Some? <==> |durations| >= ENOUGH
    ensures p95.Some? ==> IsP95(durations, p95.value)
  {
    if |durations| < ENOUGH { return None; }
    var values := Sort(durations);
    SortSorts(durations);
    AtMostPermuted(values, durations, 0);
    RankInRange(|values|);
    var v := values[Rank(|values|)];
    RankedIsP95(durations, values);
    return Some(v);
  }

  lemma RankedCount(values: seq<int>, i: nat, v: int)
    requires Sorted(values) && i < |values|
    ensures v >= values[i] ==> AtMost(values, v) >= i + 1
    ensures v < values[i] ==> AtMost(values, v) <= i
  {
    hide AtMost;
    assert values == values[..i] + values[i..] && values == values[..i + 1] + values[i + 1..];
    if v >= values[i] {
      AtMostSum(values[..i + 1], values[i + 1..], v);
      AtMostAll(values[..i + 1], v);
    } else {
      AtMostSum(values[..i], values[i..], v);
      AtMostNone(values[i..], v);
    }
  }

  lemma RankedIsP95(durations: seq<int>, values: seq<int>)
    requires durations != [] && Sorted(values) && multiset(values) == multiset(durations)
    ensures |values| == |durations| && 0 <= Rank(|values|) < |values| && IsP95(durations, values[Rank(|values|)])
  {
    AtMostPermuted(values, durations, 0);
    RankInRange(|values|);
    var i := Rank(|values|);
    assert values[i] in multiset(values);
    forall w ensures Covers(durations, w) <==> w >= values[i] {
      AtMostPermuted(values, durations, w);
      RankedCount(values, i, w);
    }
  }

  /** The percentile depends on which durations there are, not on the order they came in. */
  lemma P95Unique(a: seq<int>, b: seq<int>, v: int, w: int)
    requires multiset(a) == multiset(b) && IsP95(a, v) && IsP95(b, w)
    ensures v == w
  {
    AtMostPermuted(a, b, v);
    AtMostPermuted(a, b, w);
    assert v in multiset(a) && w in multiset(b);
    assert v in b && w in a;
  }
}
