/** `BaseMonitoringService` (src/core/services/monitoring.service.ts): the
    in-memory metric sink. Every metric is stored under a key built from its
    name and its defined labels, sorted by label name; a key holds a `count`
    slot, which `increment` advances and `getMetricValue` reads, and a
    `value` slot, which `gauge` and `histogram` overwrite. */
module Monitoring {
  import opened Base
  import opened Attempts

  /** The order in which label names are sorted: code-unit lexicographic
      order, a strict total order standing in for `localeCompare`. */
  predicate Before(a: string, b: string)
    decreases |a|
  {
    if a == [] then b != []
    else if b == [] then false
    else a[0] < b[0] || (a[0] == b[0] && Before(a[1..], b[1..]))
  }

  lemma BeforeIrreflexive(a: string)
    ensures !Before(a, a)
    decreases |a|
  {
    if a != [] {
      BeforeIrreflexive(a[1..]);
    }
  }

  lemma BeforeAsymmetric(a: string, b: string)
    ensures !(Before(a, b) && Before(b, a))
    decreases |a|
  {
    if a != [] && b != [] {
      BeforeAsymmetric(a[1..], b[1..]);
    }
  }

  lemma BeforeTotal(a: string, b: string)
    ensures a == b || Before(a, b) || Before(b, a)
    decreases |a|
  {
    if a != [] && b != [] && a[0] == b[0] {
      BeforeTotal(a[1..], b[1..]);
      if a[1..] == b[1..] {
        assert a == [a[0]] + a[1..] && b == [b[0]] + b[1..];
      }
    }
  }

  lemma BeforeTransitive(a: string, b: string, c: string)
    requires Before(a, b) && Before(b, c)
    ensures Before(a, c)
    decreases |a|
  {
    if a != [] && a[0] == b[0] && b[0] == c[0] {
      BeforeTransitive(a[1..], b[1..], c[1..]);
    }
  }

  /** The entries of a labels object, as `Object.entries` lists them, have
      pairwise distinct names. */
  predicate DistinctNames(ls: seq<Label>) {
    forall i, j :: 0 <= i < j < |ls| ==> ls[i].name != ls[j].name
  }

  predicate StrictlySorted(ls: seq<Label>) {
    forall i, j :: 0 <= i < j < |ls| ==> Before(ls[i].name, ls[j].name)
  }

  /** `.filter(([, value]) => value !== undefined)`. */
  function Present(ls: seq<Label>): (r: seq<Label>)
    ensures forall l :: multiset(r)[l] == if l.value.Some? then multiset(ls)[l] else 0
    ensures forall l :: l in r <==> l in ls && l.value.Some?
    ensures |r| <= |ls|
  {
    if ls == [] then []
    else
      assert ls == [ls[0]] + ls[1..];
      (if ls[0].value.Some? then [ls[0]] else []) + Present(ls[1..])
  }

  lemma {:induction false} PresentKeepsDistinct(ls: seq<Label>)
    requires DistinctNames(ls)
    ensures DistinctNames(Present(ls))
  {
    if ls != [] {
      PresentKeepsDistinct(ls[1..]);
      var rest := Present(ls[1..]);
      forall k | 0 <= k < |rest|
        ensures rest[k].name != ls[0].name
      {
        assert rest[k] in ls[1..];
      }
    }
  }

  /** Inserts one entry after every entry whose name does not come after it,
      as a stable sort would. */
  function Insert(l: Label, s: seq<Label>): (r: seq<Label>)
    ensures multiset(r) == multiset(s) + multiset{l}
  {
    if s == [] then [l]
    else if !Before(l.name, s[0].name) then
      assert s == [s[0]] + s[1..];
      [s[0]] + Insert(l, s[1..])
    else [l] + s
  }

  /** `.sort(([a], [b]) => a.localeCompare(b))`. */
  function SortByName(ls: seq<Label>): (r: seq<Label>)
    ensures multiset(r) == multiset(ls)
  {
    if ls == [] then []
    else
      assert ls == ls[..|ls| - 1] + [ls[|ls| - 1]];
      Insert(ls[|ls| - 1], SortByName(ls[..|ls| - 1]))
  }

  lemma {:induction false} InsertSorted(l: Label, s: seq<Label>)
    requires StrictlySorted(s)
    requires forall k :: 0 <= k < |s| ==> s[k].name != l.name
    ensures StrictlySorted(Insert(l, s))
    decreases |s|, 1
  {
    if s != [] && !Before(l.name, s[0].name) {
      InsertAfterHead(l, s);
    } else if s != [] {
      forall j | 0 < j < |s| + 1
        ensures Before(l.name, ([l] + s)[j].name)
      {
        if j > 1 {
          BeforeTransitive(l.name, s[0].name, s[j - 1].name);
        }
      }
    }
  }

  /** The case of `InsertSorted` in which the entry goes after the head. */
  lemma {:induction false} InsertAfterHead(l: Label, s: seq<Label>)
    requires StrictlySorted(s) && s != [] && !Before(l.name, s[0].name)
    requires forall k :: 0 <= k < |s| ==> s[k].name != l.name
    ensures StrictlySorted(Insert(l, s))
    decreases |s|, 0
  {
    StrictlySortedTail(s);
    InsertSorted(l, s[1..]);
    var r := Insert(l, s[1..]);
    BeforeTotal(l.name, s[0].name);
    forall j | 0 < j < |r| + 1
      ensures Before(s[0].name, ([s[0]] + r)[j].name)
    {
      var e := r[j - 1];
      assert e in multiset(r);
      if e != l {
        assert e in multiset(s[1..]);
        var k :| 0 <= k < |s[1..]| && s[1..][k] == e;
        assert s[k + 1] == e;
      }
    }
    assert Insert(l, s) == [s[0]] + r;
    SortedConsLabel(s[0], r);
  }

  lemma StrictlySortedTail(s: seq<Label>)
    requires StrictlySorted(s) && s != []
    ensures StrictlySorted(s[1..])
    ensures forall k :: 0 <= k < |s[1..]| ==> s[1..][k].name != s[0].name
  {
    forall i, j | 0 <= i < j < |s| - 1
      ensures Before(s[1..][i].name, s[1..][j].name)
    {
      assert s[1..][i] == s[i + 1] && s[1..][j] == s[j + 1];
    }
    forall k | 0 <= k < |s[1..]|
      ensures s[1..][k].name != s[0].name
    {
      assert s[1..][k] == s[k + 1];
      BeforeIrreflexive(s[0].name);
    }
  }

  lemma SortedConsLabel(h: Label, r: seq<Label>)
    requires StrictlySorted(r)
    requires forall j :: 0 < j < |r| + 1 ==> Before(h.name, ([h] + r)[j].name)
    ensures StrictlySorted([h] + r)
  {
    forall i, j | 0 <= i < j < |r| + 1
      ensures Before(([h] + r)[i].name, ([h] + r)[j].name)
    {
      if i > 0 {
        assert ([h] + r)[i] == r[i - 1] && ([h] + r)[j] == r[j - 1];
      }
    }
  }

  /** Sorting entries with distinct names orders them strictly by name. */
  lemma {:induction false} SortByNameSorted(ls: seq<Label>)
    requires DistinctNames(ls)
    ensures StrictlySorted(SortByName(ls))
  {
    if ls != [] {
      var front := ls[..|ls| - 1];
      var last := ls[|ls| - 1];
      SortByNameSorted(front);
      var sorted := SortByName(front);
      forall k | 0 <= k < |sorted|
        ensures sorted[k].name != last.name
      {
        assert sorted[k] in multiset(front);
        var i :| 0 <= i < |front| && front[i] == sorted[k];
        assert ls[i] == sorted[k];
      }
      InsertSorted(last, sorted);
    }
  }

  /** Two strictly sorted lists of the same entries are the same list. */
  lemma {:induction false} SortedUnique(x: seq<Label>, y: seq<Label>)
    requires StrictlySorted(x) && StrictlySorted(y)
    requires multiset(x) == multiset(y)
    ensures x == y
  {
    assert |x| == |multiset(x)| == |multiset(y)| == |y|;
    if x != [] {
      SortedHeadsAgree(x, y);
      StrictlySortedTail(x);
      StrictlySortedTail(y);
      MultisetTail(x);
      MultisetTail(y);
      SortedUnique(x[1..], y[1..]);
      assert x == [x[0]] + x[1..] && y == [y[0]] + y[1..];
    }
  }

  /** Each head is somewhere in the other list, so neither can come before
      the other. */
  lemma SortedHeadsAgree(x: seq<Label>, y: seq<Label>)
    requires StrictlySorted(x) && StrictlySorted(y)
    requires multiset(x) == multiset(y) && x != [] && y != []
    ensures x[0] == y[0]
  {
    assert x[0] in multiset(y) && y[0] in multiset(x);
    var j :| 0 <= j < |y| && y[j] == x[0];
    var i :| 0 <= i < |x| && x[i] == y[0];
    if j != 0 && i != 0 {
      BeforeAsymmetric(x[0].name, y[0].name);
      assert false;
    }
  }

  lemma MultisetTail(s: seq<Label>)
    requires s != []
    ensures multiset(s[1..]) == multiset(s) - multiset{s[0]}
  {
    assert s == [s[0]] + s[1..];
  }

  /** `${key}=${value}` for a defined label. */
  function Pair(l: Label): string
    requires l.value.Some?
  {
    l.name + "=" + l.value.value
  }

  /** `.map(...).join(',')`. */
  function Render(ls: seq<Label>): (s: string)
    requires forall l :: l in ls ==> l.value.Some?
    ensures s == "" <==> ls == []
  {
    if ls == [] then ""
    else if |ls| == 1 then Pair(ls[0])
    else Pair(ls[0]) + "," + Render(ls[1..])
  }

  /** `getMetricKey(metric, labels)`. */
  function MetricKey(metric: string, labels: Option<seq<Label>>): (key: string)
    // the bare name exactly when no label is defined
    ensures key == metric <==> labels.None? || Present(labels.value) == []
    ensures |key| >= |metric| && key[..|metric|] == metric
  {
    if labels.None? then metric
    else
      var sorted := Render(SortByName(Present(labels.value)));
      if sorted != "" then metric + "{" + sorted + "}" else metric
  }

  /** The key does not depend on the order in which the entries are listed. */
  lemma MetricKeyOrderFree(metric: string, a: seq<Label>, b: seq<Label>)
    requires DistinctNames(a) && DistinctNames(b)
    requires multiset(a) == multiset(b)
    ensures MetricKey(metric, Some(a)) == MetricKey(metric, Some(b))
  {
    SortedPresentOrderFree(a, b);
  }

  lemma SortedPresentOrderFree(a: seq<Label>, b: seq<Label>)
    requires DistinctNames(a) && DistinctNames(b)
    requires multiset(a) == multiset(b)
    ensures SortByName(Present(a)) == SortByName(Present(b))
  {
    PresentKeepsDistinct(a);
    PresentKeepsDistinct(b);
    SortByNameSorted(Present(a));
    SortByNameSorted(Present(b));
    PresentOrderFree(a, b);
    SortedUnique(SortByName(Present(a)), SortByName(Present(b)));
  }

  lemma PresentOrderFree(a: seq<Label>, b: seq<Label>)
    requires multiset(a) == multiset(b)
    ensures multiset(Present(a)) == multiset(Present(b))
  {
    forall l
      ensures multiset(Present(a))[l] == multiset(Present(b))[l]
    {
    }
  }

  /** `this.metricStore.get(key)?.get('count') || 0`. */
  function CountAt(store: map<string, map<string, int>>, key: string): int {
    if key in store && "count" in store[key] then store[key]["count"] else 0
  }

  /** `setMetricValue(key, type, value)`: creates the key's slots when absent
      and sets one slot. */
  function SetSlot(store: map<string, map<string, int>>, key: string, slot: string, v: int): (r: map<string, map<string, int>>)
    ensures key in r && slot in r[key] && r[key][slot] == v
    ensures forall other :: other in r[key] && other != slot ==> key in store && other in store[key] && r[key][other] == store[key][other]
    ensures forall k :: k != key ==> (k in r <==> k in store) && (k in store ==> r[k] == store[k])
  {
    store[key := (if key in store then store[key] else map[])[slot := v]]
  }

  /** What one call on the sink does to the store. */
  function Apply(store: map<string, map<string, int>>, m: Metric): map<string, map<string, int>> {
    var key := MetricKey(m.name, m.labels);
    match m
    case Increment(_, _) => SetSlot(store, key, "count", CountAt(store, key) + 1)
    case Gauge(_, v, _) => SetSlot(store, key, "value", v)
    case Histogram(_, v, _) => SetSlot(store, key, "value", v)
  }

  function Replay(store: map<string, map<string, int>>, log: seq<Metric>): map<string, map<string, int>>
    decreases |log|
  {
    if log == [] then store else Replay(Apply(store, log[0]), log[1..])
  }

  /** The increments in a log that land on a key. */
  function Hits(log: seq<Metric>, key: string): (n: nat)
    ensures n <= |log|
  {
    if log == [] then 0
    else (if log[0].Increment? && MetricKey(log[0].name, log[0].labels) == key then 1 else 0) + Hits(log[1..], key)
  }

  /** One call moves a key's count by one exactly when it is an increment
      landing on that key; gauges and histograms never move a count. */
  lemma ApplyCounts(store: map<string, map<string, int>>, m: Metric, key: string)
    ensures CountAt(Apply(store, m), key)
         == CountAt(store, key) + (if m.Increment? && MetricKey(m.name, m.labels) == key then 1 else 0)
  {
  }

  /** A key's count is what it was plus the increments that land on it. */
  lemma {:induction false} ReplayCounts(store: map<string, map<string, int>>, log: seq<Metric>, key: string)
    ensures CountAt(Replay(store, log), key) == CountAt(store, key) + Hits(log, key)
    decreases |log|
  {
    if log != [] {
      ApplyCounts(store, log[0], key);
      ReplayCounts(Apply(store, log[0]), log[1..], key);
    }
  }

  /** n increments of one metric on a fresh store read back as n, and any key
      nobody incremented reads as 0. */
  lemma IncrementsReadBack(metric: string, labels: Option<seq<Label>>, n: nat, other: string)
    ensures CountAt(Replay(map[], Repeat(Increment(metric, labels), n)), MetricKey(metric, labels)) == n
    ensures other != MetricKey(metric, labels) ==> CountAt(Replay(map[], Repeat(Increment(metric, labels), n)), other) == 0
  {
    var log := Repeat(Increment(metric, labels), n);
    ReplayCounts(map[], log, MetricKey(metric, labels));
    ReplayCounts(map[], log, other);
    HitsRepeat(Increment(metric, labels), n, MetricKey(metric, labels));
    HitsRepeat(Increment(metric, labels), n, other);
  }

  lemma {:induction false} HitsRepeat(m: Metric, n: nat, key: string)
    ensures Hits(Repeat(m, n), key) == if m.Increment? && MetricKey(m.name, m.labels) == key then n else 0
  {
    if n > 0 {
      assert Repeat(m, n)[1..] == Repeat(m, n - 1);
      HitsRepeat(m, n - 1, key);
    }
  }

  class BaseMonitoringService {
    var metricStore: map<string, map<string, int>>

    constructor ()
      ensures metricStore == map[]
    {
      metricStore := map[];
    }

    method Increment(metric: string, labels: Option<seq<Label>>)
      modifies this
      ensures metricStore == Apply(old(metricStore), Base.Increment(metric, labels))
    {
      var key := MetricKey(metric, labels);
      var currentValue := CountAt(metricStore, key);
      SetMetricValue(key, "count", currentValue + 1);
    }

    method Gauge(metric: string, value: int, labels: Option<seq<Label>>)
      modifies this
      ensures metricStore == Apply(old(metricStore), Base.Gauge(metric, value, labels))
    {
      SetMetricValue(MetricKey(metric, labels), "value", value);
    }

    method Histogram(metric: string, value: int, labels: Option<seq<Label>>)
      modifies this
      ensures metricStore == Apply(old(metricStore), Base.Histogram(metric, value, labels))
    {
      SetMetricValue(MetricKey(metric, labels), "value", value);
    }

    method GetMetricValue(metric: string, labels: Option<seq<Label>>) returns (v: int)
      ensures v == CountAt(metricStore, MetricKey(metric, labels))
      ensures MetricKey(metric, labels) !in metricStore ==> v == 0
    {
      var key := MetricKey(metric, labels);
      if key in metricStore && "count" in metricStore[key] {
        v := metricStore[key]["count"];
      } else {
        v := 0;
      }
    }

    method SetMetricValue(key: string, slot: string, value: int)
      modifies this
      ensures metricStore == SetSlot(old(metricStore), key, slot, value)
    {
      if key !in metricStore {
        metricStore := metricStore[key := map[]];
      }
      metricStore := metricStore[key := metricStore[key][slot := value]];
    }

    method Reset()
      modifies this
      ensures metricStore == map[]
    {
      metricStore := map[];
    }
  }
}
