/** The median of the last eleven timestamps, which a new count must exceed. */
module MedianTime {

  const WINDOW: nat := 11

  function Insert(x: int, s: seq<int>): seq<int>
  {
    if s == [] || x <= s[0] then [x] + s else [s[0]] + Insert(x, s[1..])
  }

  /** The sorted timestamps; any sorting gives this sequence. */
  function Sort(s: seq<int>): seq<int> { if s == [] then [] else Insert(s[|s| - 1], Sort(s[..|s| - 1])) }

  predicate Sorted(s: seq<int>) { forall i, j :: 0 <= i < j < |s| ==> s[i] <= s[j] }

  /** How many entries are below `m`. */
  function Below(s: seq<int>, m: int): nat { if s == [] then 0 else (if s[0] < m then 1 else 0) + Below(s[1..], m) }

  lemma {:induction false} BelowConcat(a: seq<int>, b: seq<int>, m: int)
    ensures Below(a + b, m) == Below(a, m) + Below(b, m)
  {
    if a == [] {
      assert a + b == b;
    } else {
      assert (a + b)[1..] == a[1..] + b;
      BelowConcat(a[1..], b, m);
    }
  }

  lemma {:induction false} InsertEffect(x: int, s: seq<int>, m: int)
    requires Sorted(s)
    ensures Sorted(Insert(x, s)) && |Insert(x, s)| == |s| + 1
    ensures Below(Insert(x, s), m) == Below(s, m) + (if x < m then 1 else 0)
    ensures AtLeast(Insert(x, s), if s == [] || x <= s[0] then x else s[0])
  {
    hide Sorted, Below, AtLeast;
    if s != [] && x > s[0] {
      SortedTail(s);
      InsertEffect(x, s[1..], m);
      Weaken(Insert(x, s[1..]), if |s| == 1 || x <= s[1] then x else s[1], s[0]);
      Prepend(s[0], Insert(x, s[1..]), m);
      Prepend(s[0], s[1..], m);
      assert s == [s[0]] + s[1..];
    } else {
      SortedTail(s);
      Prepend(x, s, m);
    }
  }

  predicate AtLeast(s: seq<int>, x: int) { forall i :: 0 <= i < |s| ==> s[i] >= x }

  lemma SortedTail(s: seq<int>)
    requires Sorted(s)
    ensures s != [] ==> Sorted(s[1..]) && (|s| > 1 ==> s[0] <= s[1])
    ensures forall x :: s == [] || x <= s[0] ==> AtLeast(s, x)
  {
  }

  lemma Weaken(s: seq<int>, x: int, y: int)
    requires AtLeast(s, x) && y <= x
    ensures AtLeast(s, y)
  {
  }

  /** A least element in front. */
  lemma Prepend(x: int, s: seq<int>, m: int)
    ensures Below([x] + s, m) == Below(s, m) + (if x < m then 1 else 0)
    ensures Sorted(s) && AtLeast(s, x) ==> Sorted([x] + s) && AtLeast([x] + s, x)
  {
    assert ([x] + s)[1..] == s;
  }

  lemma {:induction false} SortEffect(s: seq<int>, m: int)
    ensures Sorted(Sort(s)) && |Sort(s)| == |s| && Below(Sort(s), m) == Below(s, m)
  {
    if s == [] {
    } else {
      var s', x := s[..|s| - 1], s[|s| - 1];
      SortEffect(s', m);
      InsertEffect(x, Sort(s'), m);
      assert s == s' + [x];
      BelowConcat(s', [x], m);
      assert Below([x], m) == if x < m then 1 else 0;
    }
  }

  /** In sorted order, entry `i` is at least `m` exactly when at most `i` entries are below `m`. */
  lemma {:induction false} RankOf(s: seq<int>, m: int, i: nat)
    requires Sorted(s) && i < |s|
    ensures s[i] >= m <==> Below(s, m) <= i
  {
    if i > 0 {
      RankOf(s[1..], m, i - 1);
    } else if s[0] >= m {
      NoneBelow(s, m);
    }
    if s[0] >= m {
      NoneBelow(s, m);
    }
  }

  lemma {:induction false} NoneBelow(s: seq<int>, m: int)
    requires forall i :: 0 <= i < |s| ==> s[i] >= m
    ensures Below(s, m) == 0
  {
    if s == [] {
    } else {
      NoneBelow(s[1..], m);
    }
  }

  /** The last eleven timestamps of a chain, newest first, as the header walk collects them. */
  function Window(times: seq<int>, n: nat): seq<int>
    requires n <= |times|
  {
    if n == 0 then [] else Window(times, n - 1) + [times[|times| - n]]
  }

  function Min(a: nat, b: nat): nat { if a < b then a else b }

  /** The median timestamp a chain with these timestamps demands of its next count. */
  function Median(times: seq<int>): int
    requires times != []
  {
    var w := Window(times, Min(|times|, WINDOW));
    WindowLength(times, Min(|times|, WINDOW));
    SortEffect(w, 0);
    Sort(w)[|w| / 2]
  }

  lemma {:induction false} WindowLength(times: seq<int>, n: nat)
    requires n <= |times|
    ensures |Window(times, n)| == n
  {
    if n == 0 {
    } else {
      WindowLength(times, n - 1);
    }
  }

  lemma WindowEmpty(times: seq<int>)
    ensures Window(times, 0) == []
  {
  }

  lemma WindowGrow(times: seq<int>, n: nat)
    requires n < |times|
    ensures Window(times, n + 1) == Window(times, n) + [times[|times| - 1 - n]]
  {
  }

  lemma {:induction false} WindowExtend(times: seq<int>, t: int, n: nat)
    requires n <= |times|
    ensures Window(times + [t], n + 1) == [t] + Window(times, n)
  {
    hide Window;
    WindowGrow(times + [t], n);
    if n == 0 {
      WindowEmpty(times);
      WindowEmpty(times + [t]);
    } else {
      WindowExtend(times, t, n - 1);
      WindowDrop(times, n);
      assert (times + [t])[|times| - n] == times[|times| - n];
      assert [t] + Window(times, n - 1) + [times[|times| - n]] == [t] + Window(times, n);
    }
  }

  lemma WindowDrop(times: seq<int>, n: nat)
    requires 0 < n <= |times|
    ensures Window(times, n) == Window(times, n - 1) + [times[|times| - n]]
  {
  }

  /** A timestamp above the median never lowers the next median, in short windows too. */
  lemma MedianNeverGoesBack(times: seq<int>, t: int)
    requires times != [] && t > Median(times)
    ensures Median(times + [t]) >= Median(times)
  {
    hide Sort, Below, Window, Sorted;
    var n, m := Min(|times|, WINDOW), Median(times);
    var k := Min(|times| + 1, WINDOW);
    var w, w' := Window(times, n), Window(times + [t], k);
    WindowLength(times, n);
    WindowLength(times + [t], k);
    SortEffect(w, m);
    SortEffect(w', m);
    RankOf(Sort(w), m, n / 2);
    WindowExtend(times, t, k - 1);
    if k - 1 < n {
      WindowDrop(times, n);
      BelowConcat(Window(times, k - 1), [times[|times| - n]], m);
    }
    assert w' == [t] + Window(times, k - 1);
    BelowConcat([t], Window(times, k - 1), m);
    NoneBelow([t], m);
    RankOf(Sort(w'), m, k / 2);
  }

  /** A timestamp above all others is above their median. */
  lemma MedianBelow(times: seq<int>, t: int)
    requires times != [] && forall i :: 0 <= i < |times| ==> times[i] < t
    ensures Median(times) < t
  {
    hide Sort, Sorted, Window;
    var n := Min(|times|, WINDOW);
    var w := Window(times, n);
    WindowLength(times, n);
    WindowFrom(times, n);
    assert forall i :: 0 <= i < |w| ==> w[i] in w;
    AllBelow(w, t);
    SortEffect(w, t);
    RankOf(Sort(w), t, |w| / 2);
  }

  lemma {:induction false} WindowFrom(times: seq<int>, n: nat)
    requires n <= |times|
    ensures forall x :: x in Window(times, n) ==> x in times
  {
    if n == 0 {
    } else {
      WindowFrom(times, n - 1);
    }
  }

  lemma {:induction false} AllBelow(s: seq<int>, m: int)
    requires forall i :: 0 <= i < |s| ==> s[i] < m
    ensures Below(s, m) == |s|
  {
    if s == [] {
    } else {
      AllBelow(s[1..], m);
    }
  }

  // ----- the median among the last timestamps

  function Latest(times: seq<int>): (s: seq<int>)
    ensures |s| == if |times| < 11 then |times| else 11
  {
    times[|times| - (if |times| < 11 then |times| else 11)..]
  }

  function Low(s: seq<int>, m: int): set<nat> { set i: nat | i < |s| && s[i] < m }

  /** `Below` counts. */
  lemma {:induction false} BelowCounts(s: seq<int>, m: int)
    ensures Below(s, m) == |Low(s, m)|
  {
    if s == [] {
    } else {
      var n := |s| - 1;
      BelowCounts(s[..n], m);
      BelowConcat(s[..n], [s[n]], m);
      assert s == s[..n] + [s[n]];
      assert Low(s, m) == Low(s[..n], m) + (if s[n] < m then {n} else {});
    }
  }

  lemma {:induction false} BelowWindow(times: seq<int>, n: nat, m: int)
    requires n <= |times|
    ensures Below(Window(times, n), m) == Below(times[|times| - n..], m)
  {
    if n == 0 {
    } else {
      BelowWindow(times, n - 1, m);
      var oldest, newer := times[|times| - n], times[|times| - n + 1..];
      BelowConcat(Window(times, n - 1), [oldest], m);
      BelowConcat([oldest], newer, m);
      assert times[|times| - n..] == [oldest] + newer;
    }
  }

  /** At most half of the last eleven timestamps are below the median, and more than half are not above it. */
  lemma MedianIsMiddle(times: seq<int>)
    requires times != []
    ensures var s := Latest(times);
      Below(s, Median(times)) <= |s| / 2 < Below(s, Median(times) + 1)
  {
    hide Sort, Sorted, Window, Below;
    var n, m := Min(|times|, WINDOW), Median(times);
    var w := Window(times, n);
    WindowLength(times, n);
    BelowWindow(times, n, m);
    BelowWindow(times, n, m + 1);
    SortEffect(w, m);
    SortEffect(w, m + 1);
    RankOf(Sort(w), m, n / 2);
    RankOf(Sort(w), m + 1, n / 2);
  }
}
