/**
 * The performance-metric log: an append-only buffer that keeps the most
 * recent 1000 metrics, with category filtering, per-name averages and a
 * summary report.
 */
module Analytics {
  import opened Common

  /** The buffer keeps at most this many metrics. */
  const MaxMetrics: nat := 1000
  /** The report lists at most this many of the latest metrics. */
  const RecentCount: nat := 10
  /** The metric name whose average the report gives as the render time. */
  const ComponentRender: string := "component-render"

  datatype Category = Render | Data | UserInteraction | Network

  function CategoryName(c: Category): (s: string)
    ensures s != ""
  {
    match c
    case Render => "render"
    case Data => "data"
    case UserInteraction => "user-interaction"
    case Network => "network"
  }

  /** A recorded measurement; its free-form metadata is not modelled. */
  datatype Metric = Metric(name: string, value: int, timestamp: int, category: Category)

  datatype Report = Report(
    totalMetrics: nat,
    averageRenderTime: real,
    slowestRender: Option<Metric>,
    recentMetrics: seq<Metric>)

  /** The buffer `recordMetric` leaves behind: push, then keep the last 1000. */
  function Retain(buffer: seq<Metric>, m: Metric): (r: seq<Metric>)
    ensures |r| <= MaxMetrics
    ensures |buffer| < MaxMetrics ==> r == buffer + [m]
    ensures |buffer| >= MaxMetrics ==> r == buffer[|buffer| + 1 - MaxMetrics..] + [m]
  {
    var r := TakeLast(buffer + [m], MaxMetrics);
    assert |buffer| >= MaxMetrics ==>
      r == (buffer + [m])[|buffer| + 1 - MaxMetrics..] == buffer[|buffer| + 1 - MaxMetrics..] + [m];
    r
  }

  /** The buffer after recording `ms`, one by one, into an empty log. */
  function Replay(ms: seq<Metric>): seq<Metric>
  {
    if ms == [] then [] else Retain(Replay(ms[..|ms| - 1]), ms[|ms| - 1])
  }

  /** The log always holds exactly the last `min(n, 1000)` metrics recorded, in order. */
  lemma {:induction false} ReplayKeepsLatest(ms: seq<Metric>)
    ensures Replay(ms) == TakeLast(ms, MaxMetrics)
  {
    if ms != [] {
      var init := ms[..|ms| - 1];
      ReplayKeepsLatest(init);
      assert init + [ms[|ms| - 1]] == ms;
      TakeLastPush(init, ms[|ms| - 1], MaxMetrics);
    }
  }

  /** Trimming before a push and trimming after it keep the same window. */
  lemma TakeLastPush(s: seq<Metric>, x: Metric, n: nat)
    requires n > 0
    ensures TakeLast(TakeLast(s, n) + [x], n) == TakeLast(s + [x], n)
  {
    if |s| >= n {
      assert TakeLast(s, n) == s[|s| - n..];
      assert TakeLast(s[|s| - n..] + [x], n) == s[|s| - n + 1..] + [x];
      assert TakeLast(s + [x], n) == (s + [x])[|s| + 1 - n..];
      assert (s + [x])[|s| + 1 - n..] == s[|s| + 1 - n..] + [x];
    }
  }

  /** The sum `reduce((acc, m) => acc + m.value, 0)`. */
  function Sum(ms: seq<Metric>): int
  {
    if ms == [] then 0 else Sum(ms[..|ms| - 1]) + ms[|ms| - 1].value
  }

  /** A sum of values within `[lo, hi]` lies between `n * lo` and `n * hi`. */
  lemma {:induction false} SumBounds(ms: seq<Metric>, lo: int, hi: int)
    requires forall i :: 0 <= i < |ms| ==> lo <= ms[i].value <= hi
    ensures |ms| * lo <= Sum(ms) <= |ms| * hi
  {
    if ms != [] {
      var init := ms[..|ms| - 1];
      SumBounds(init, lo, hi);
      assert |ms| * lo == |init| * lo + lo;
      assert |ms| * hi == |init| * hi + hi;
    }
  }

  /** An integer product is the same product in the reals. */
  lemma {:induction false} IntProductAsReal(a: nat, b: int)
    ensures (a * b) as real == a as real * b as real
  {
    if a > 0 {
      IntProductAsReal(a - 1, b);
      assert a * b == (a - 1) * b + b;
    }
  }

  /** A mean `m` of `n > 0` values whose sum lies in `[n * lo, n * hi]` lies in `[lo, hi]`. */
  lemma MeanBetween(m: real, n: real, lo: real, hi: real, sum: real)
    requires n > 0.0 && m * n == sum && n * lo <= sum <= n * hi
    ensures lo <= m <= hi
  {
    assert (m - lo) * n == sum - n * lo >= 0.0;
    assert (hi - m) * n == n * hi - sum >= 0.0;
  }

  /** The same for the mean of `count > 0` integers summing to `sum`. */
  lemma MeanOfIntsBetween(count: nat, lo: int, hi: int, sum: int)
    requires count > 0
    requires count * lo <= sum <= count * hi
    ensures lo as real <= sum as real / count as real <= hi as real
  {
    var m, n := sum as real / count as real, count as real;
    assert m * n == sum as real;
    IntProductAsReal(count, lo);
    IntProductAsReal(count, hi);
    MeanBetween(m, n, lo as real, hi as real, sum as real);
  }

  /** The render-category step of `reduce`: a strictly larger value replaces the one held. */
  function SlowerOf(slowest: Option<Metric>, current: Metric): Option<Metric>
  {
    if slowest.None? || current.value > slowest.value.value then Some(current) else slowest
  }

  /** `reduce(SlowerOf, null)` over `ms`, from the first element to the last. */
  function Slowest(ms: seq<Metric>): Option<Metric>
  {
    if ms == [] then None else SlowerOf(Slowest(ms[..|ms| - 1]), ms[|ms| - 1])
  }

  /** `ms[k]` has a maximal value and no earlier metric has that value. */
  predicate IsSlowestAt(ms: seq<Metric>, k: int)
  {
    0 <= k < |ms|
    && (forall j :: 0 <= j < |ms| ==> ms[j].value <= ms[k].value)
    && (forall j :: 0 <= j < k ==> ms[j].value < ms[k].value)
  }

  /** The fold yields nothing only for no metrics, and otherwise the earliest metric of maximal value. */
  lemma {:induction false} SlowestIsEarliestMaximum(ms: seq<Metric>)
    ensures Slowest(ms).None? <==> ms == []
    ensures ms != [] ==> exists k :: IsSlowestAt(ms, k) && Slowest(ms) == Some(ms[k])
  {
    if ms != [] {
      var init := ms[..|ms| - 1];
      var last := |ms| - 1;
      SlowestIsEarliestMaximum(init);
      if init == [] {
        assert IsSlowestAt(ms, 0);
      } else {
        var k :| IsSlowestAt(init, k) && Slowest(init) == Some(init[k]);
        if ms[last].value > init[k].value {
          assert IsSlowestAt(ms, last);
        } else {
          assert ms[k] == init[k];
          assert IsSlowestAt(ms, k);
        }
      }
    }
  }

  /** The metrics of one category, by the name the caller passes. */
  function InCategory(ms: seq<Metric>, category: string): seq<Metric>
  {
    Filter(OfCategory(category), ms)
  }

  /** The test `m.category === category`. */
  function OfCategory(category: string): Metric -> bool
  {
    (m: Metric) => CategoryName(m.category) == category
  }

  /** Every stored metric is in exactly one of the four categories the report and the dashboard ask for. */
  lemma CategoriesPartition(ms: seq<Metric>)
    ensures |InCategory(ms, "render")| + |InCategory(ms, "data")|
            + |InCategory(ms, "user-interaction")| + |InCategory(ms, "network")| == |ms|
  {
    forall m: Metric ensures OneOf(OfCategory("render"), OfCategory("data"),
                                   OfCategory("user-interaction"), OfCategory("network"), m) {
      assert CategoryName(m.category)[0] in {'r', 'd', 'u', 'n'};
    }
    FilterPartition4(OfCategory("render"), OfCategory("data"), OfCategory("user-interaction"), OfCategory("network"), ms);
  }

  /** Exactly one of the four tests holds of `x`. */
  predicate OneOf<T>(p1: T -> bool, p2: T -> bool, p3: T -> bool, p4: T -> bool, x: T)
  {
    (if p1(x) then 1 else 0) + (if p2(x) then 1 else 0) + (if p3(x) then 1 else 0) + (if p4(x) then 1 else 0) == 1
  }

  /** Four filters whose tests are exclusive and exhaustive split a sequence. */
  lemma {:induction false} FilterPartition4<T>(p1: T -> bool, p2: T -> bool, p3: T -> bool, p4: T -> bool, s: seq<T>)
    requires forall x :: OneOf(p1, p2, p3, p4, x)
    ensures |Filter(p1, s)| + |Filter(p2, s)| + |Filter(p3, s)| + |Filter(p4, s)| == |s|
  {
    if s != [] {
      FilterPartition4(p1, p2, p3, p4, s[1..]);
      assert OneOf(p1, p2, p3, p4, s[0]);
    }
  }

  /** The metrics called `name`, in stored order. */
  function Named(ms: seq<Metric>, name: string): seq<Metric>
  {
    Filter((m: Metric) => m.name == name, ms)
  }

  /** The mean of the values called `name`, when every such value lies within `[lo, hi]`, lies there too. */
  lemma NamedWithinBounds(ms: seq<Metric>, name: string, lo: int, hi: int)
    requires Named(ms, name) != []
    requires forall i :: 0 <= i < |ms| && ms[i].name == name ==> lo <= ms[i].value <= hi
    ensures lo as real <= Sum(Named(ms, name)) as real / |Named(ms, name)| as real <= hi as real
  {
    var relevant := Named(ms, name);
    forall i | 0 <= i < |relevant|
      ensures lo <= relevant[i].value <= hi
    {
      assert relevant[i] in ms;
    }
    SumBounds(relevant, lo, hi);
    MeanOfIntsBetween(|relevant|, lo, hi, Sum(relevant));
  }

  class PerformanceAnalytics {
    var metrics: seq<Metric>

    ghost predicate Valid()
      reads this
    {
      |metrics| <= MaxMetrics
    }

    constructor ()
      ensures Valid() && metrics == []
    {
      metrics := [];
    }

    method RecordMetric(metric: Metric)
      modifies this
      ensures Valid()
      ensures metrics == Retain(old(metrics), metric)
    {
      metrics := metrics + [metric];
      if |metrics| > MaxMetrics {
        metrics := metrics[|metrics| - MaxMetrics..];
      }
    }

    /**
     * The stored metrics of `category`, in stored order; an absent or empty
     * (falsy) category returns the whole buffer.
     */
    function GetMetrics(category: Option<string>): (r: seq<Metric>)
      reads this
      ensures category.None? || category == Some("") ==> r == metrics
      ensures category.Some? && category.value != "" ==>
        (forall i :: 0 <= i < |r| ==> r[i] in metrics && CategoryName(r[i].category) == category.value)
        && (forall i :: 0 <= i < |metrics| && CategoryName(metrics[i].category) == category.value ==>
              metrics[i] in r)
        && IsSubsequence(r, metrics)
        && (forall m :: multiset(r)[m] ==
              if CategoryName(m.category) == category.value then multiset(metrics)[m] else 0)
    {
      if category.None? || category.value == "" then metrics
      else
        FilterCounts(OfCategory(category.value), metrics);
        InCategory(metrics, category.value)
    }

    /** The mean value of the stored metrics called `name`, or 0 when there are none. */
    function GetAverageMetric(name: string): (r: real)
      reads this
      ensures var relevant := Named(metrics, name);
        (relevant == [] ==> r == 0.0)
        && (relevant != [] ==> r * |relevant| as real == Sum(relevant) as real)
    {
      var relevant := Named(metrics, name);
      if |relevant| == 0 then 0.0 else Sum(relevant) as real / |relevant| as real
    }

    function GenerateReport(): (r: Report)
      reads this
      ensures r.totalMetrics == |metrics|
      ensures r.recentMetrics == TakeLast(metrics, RecentCount)
      ensures r.averageRenderTime == GetAverageMetric(ComponentRender)
      ensures var renders := InCategory(metrics, "render");
        (r.slowestRender.None? <==> renders == [])
        && (renders != [] ==> exists k :: IsSlowestAt(renders, k) && r.slowestRender == Some(renders[k]))
    {
      var renders := GetMetrics(Some("render"));
      SlowestIsEarliestMaximum(renders);
      Report(|metrics|, GetAverageMetric(ComponentRender), Slowest(renders), TakeLast(metrics, RecentCount))
    }

    /** When every value of that name lies within `[lo, hi]`, so does their average. */
    lemma AverageWithinBounds(name: string, lo: int, hi: int)
      requires forall i :: 0 <= i < |metrics| && metrics[i].name == name ==> lo <= metrics[i].value <= hi
      ensures Named(metrics, name) != [] ==> lo as real <= GetAverageMetric(name) <= hi as real
    {
      if Named(metrics, name) != [] {
        NamedWithinBounds(metrics, name, lo, hi);
      }
    }

    method ClearMetrics()
      modifies this
      ensures Valid() && metrics == []
    {
      metrics := [];
    }

    /** Disconnecting the browser observers is not modelled; the buffer is emptied. */
    method Dispose()
      modifies this
      ensures Valid() && metrics == []
    {
      metrics := [];
    }
  }

  /** A buffer built only by `recordMetric` from empty is exactly the replay of what was recorded. */
  lemma RecordExtendsReplay(ms: seq<Metric>, m: Metric)
    ensures Retain(Replay(ms), m) == Replay(ms + [m])
    ensures Replay(ms + [m]) == TakeLast(ms + [m], MaxMetrics)
  {
    assert (ms + [m])[..|ms|] == ms;
    ReplayKeepsLatest(ms + [m]);
  }
}
