/** `PerformanceMonitor` (performance_optimizer.py): a bounded history of
    per-operation metrics, the summary computed over a recent time window
    (rates, response-time statistics, percentiles and a per-operation
    breakdown), and the threshold alerts raised on each recorded metric.

    Durations, rates and timestamps are Python floats; they are `real` here,
    so every statistic is exact. The clock reading `time.time()` is the
    argument `now`; the alerts that the source writes to the log are
    returned instead. */
module Monitoring {
  import opened Wrappers

  /** `PerformanceMetrics`. */
  datatype Metric = Metric(
    operation: string,
    duration: real,
    memoryUsage: int,
    cpuUsage: real,
    cacheHit: bool,
    timestamp: real,
    success: bool,
    errorMessage: Option<string>)

  /** `deque(maxlen=10000)`. */
  const MaxHistory: nat := 10000

  /** `alert_thresholds['response_time']`, in seconds. */
  const ResponseTimeThreshold: real := 5.0

  /** `alert_thresholds['memory_usage']`, in bytes. */
  const MemoryThreshold: int := 1000000000

  /** Appending to a deque with a `maxlen`: the newest `maxlen` elements of
      `h + [m]` survive, the oldest are dropped. */
  function Appended<T>(h: seq<T>, m: T, maxlen: nat): (r: seq<T>)
    ensures |r| == if |h| + 1 <= maxlen then |h| + 1 else maxlen
    ensures r == (h + [m])[|h| + 1 - |r|..]
    ensures |h| < maxlen ==> r == h + [m]
  {
    var s := h + [m];
    if |s| <= maxlen then s else s[|s| - maxlen..]
  }

  // ---------------------------------------------------------------------
  // Alerts

  /** One line of `_check_alerts`; the message formatting is not modelled. */
  datatype Alert =
    | HighResponseTime(duration: real)
    | HighMemoryUsage(memoryUsage: int)
    | OperationFailed(errorMessage: Option<string>)

  /** `_check_alerts`: the alerts a metric raises, in the order they are logged. */
  function Alerts(m: Metric): (r: seq<Alert>)
    ensures |r| <= 3
    ensures HighResponseTime(m.duration) in r <==> m.duration > ResponseTimeThreshold
    ensures HighMemoryUsage(m.memoryUsage) in r <==> m.memoryUsage > MemoryThreshold
    ensures OperationFailed(m.errorMessage) in r <==> !m.success
    ensures forall a :: a in r ==> a in [HighResponseTime(m.duration), HighMemoryUsage(m.memoryUsage), OperationFailed(m.errorMessage)]
  {
    (if m.duration > ResponseTimeThreshold then [HighResponseTime(m.duration)] else [])
    + (if m.memoryUsage > MemoryThreshold then [HighMemoryUsage(m.memoryUsage)] else [])
    + (if !m.success then [OperationFailed(m.errorMessage)] else [])
  }

  // ---------------------------------------------------------------------
  // Sequences of durations

  function Sum(ds: seq<real>): real
  {
    if ds == [] then 0.0 else ds[0] + Sum(ds[1..])
  }

  /** `min(ds)`. */
  function Min(ds: seq<real>): (r: real)
    requires ds != []
    ensures forall i :: 0 <= i < |ds| ==> r <= ds[i]
  {
    if |ds| == 1 then ds[0]
    else
      var m := Min(ds[1..]);
      assert forall i :: 1 <= i < |ds| ==> ds[i] == ds[1..][i - 1];
      if ds[0] <= m then ds[0] else m
  }

  /** `max(ds)`. */
  function Max(ds: seq<real>): (r: real)
    requires ds != []
    ensures forall i :: 0 <= i < |ds| ==> ds[i] <= r
  {
    if |ds| == 1 then ds[0]
    else
      var m := Max(ds[1..]);
      assert forall i :: 1 <= i < |ds| ==> ds[i] == ds[1..][i - 1];
      if ds[0] >= m then ds[0] else m
  }

  /** `min` and `max` pick elements of the sequence. */
  lemma {:induction false} MinMaxAreElements(ds: seq<real>)
    requires ds != []
    ensures Min(ds) in ds && Max(ds) in ds
  {
    if |ds| > 1 {
      MinMaxAreElements(ds[1..]);
      assert ds == [ds[0]] + ds[1..];
    }
  }

  lemma ScaleLe(a: real, b: real, n: real)
    requires a <= b && n >= 0.0
    ensures n * a <= n * b
  {
  }
  lemma PlusOne(n: real, a: real)
    ensures (n + 1.0) * a == n * a + a
  {
  }
  /** A sum of values between `lo` and `hi` lies between `n * lo` and `n * hi`. */
  lemma {:induction false} SumWithin(ds: seq<real>, lo: real, hi: real)
    requires forall i :: 0 <= i < |ds| ==> lo <= ds[i] <= hi
    ensures |ds| as real * lo <= Sum(ds) <= |ds| as real * hi
  {
    if ds != [] {
      var tail := ds[1..];
      assert forall i :: 0 <= i < |tail| ==> tail[i] == ds[i + 1];
      SumWithin(tail, lo, hi);
      var n := |tail| as real;
      assert |ds| as real == n + 1.0;
      PlusOne(n, lo);
      PlusOne(n, hi);
    }
  }
  lemma DivBetween(x: real, n: real, lo: real, hi: real)
    requires n > 0.0 && n * lo <= x <= n * hi
    ensures lo <= x / n <= hi
  {
    var q := x / n;
    assert x == n * q;
    if q < lo {
      ScaleLe(q, lo, n);
    }
    if q > hi {
      ScaleLe(hi, q, n);
    }
  }
  /** The mean of values between `lo` and `hi` lies between them too. */
  lemma MeanWithin(ds: seq<real>, lo: real, hi: real)
    requires ds != [] && forall i :: 0 <= i < |ds| ==> lo <= ds[i] <= hi
    ensures lo <= Sum(ds) / |ds| as real <= hi
  {
    SumWithin(ds, lo, hi);
    DivBetween(Sum(ds), |ds| as real, lo, hi);
  }

  /** A count over a total, as `count / total` computes it, is a fraction. */
  lemma FractionWithin(count: nat, total: nat)
    requires count <= total && total > 0
    ensures 0.0 <= count as real / total as real <= 1.0
  {
    DivBetween(count as real, total as real, 0.0, 1.0);
  }

  // ---------------------------------------------------------------------
  // `sorted` and `_percentile`

  predicate Sorted(s: seq<real>)
  {
    forall i, j :: 0 <= i < j < |s| ==> s[i] <= s[j]
  }

  function Insert(x: real, s: seq<real>): (r: seq<real>)
    ensures multiset(r) == multiset(s) + multiset{x} && |r| == |s| + 1
    ensures forall y :: y in r <==> y == x || y in s
  {
    if s == [] || x <= s[0] then [x] + s
    else
      assert s == [s[0]] + s[1..];
      [s[0]] + Insert(x, s[1..])
  }

  lemma {:induction false} InsertSorted(x: real, s: seq<real>)
    requires Sorted(s)
    ensures Sorted(Insert(x, s))
  {
    if s == [] || x <= s[0] {
      var r := [x] + s;
      forall i, j | 0 <= i < j < |r| ensures r[i] <= r[j] {
        assert r[j] == s[j - 1];
        if i > 0 {
          assert r[i] == s[i - 1];
        }
      }
    } else {
      var t := Insert(x, s[1..]);
      InsertSorted(x, s[1..]);
      var r := [s[0]] + t;
      forall k | 0 <= k < |t| ensures s[0] <= t[k] {
        assert t[k] in t;
        if t[k] != x {
          var i :| 0 <= i < |s[1..]| && s[1..][i] == t[k];
          assert s[i + 1] == t[k];
        }
      }
      forall i, j | 0 <= i < j < |r| ensures r[i] <= r[j] {
        assert r[j] == t[j - 1];
        if i > 0 {
          assert r[i] == t[i - 1];
        }
      }
    }
  }

  /** `sorted(ds)`: an ordered permutation of `ds`. */
  function Sort(ds: seq<real>): (r: seq<real>)
    ensures multiset(r) == multiset(ds) && |r| == |ds|
    ensures forall y :: y in r <==> y in ds
  {
    if ds == [] then []
    else
      assert ds == [ds[0]] + ds[1..];
      Insert(ds[0], Sort(ds[1..]))
  }

  lemma {:induction false} SortSorted(ds: seq<real>)
    ensures Sorted(Sort(ds))
  {
    if ds != [] {
      SortSorted(ds[1..]);
      InsertSorted(ds[0], Sort(ds[1..]));
    }
  }

  /** `_percentile`: the nearest-rank element of the sorted data, at index
      floor(p * n / 100) clamped to the last one; 0.0 for no data. */
  function Percentile(ds: seq<real>, p: nat): real
  {
    if ds == [] then 0.0 else Sort(ds)[Rank(p, |ds|)]
  }

  /** The nearest-rank index of the `p`th percentile among `n` values. */
  function Rank(p: nat, n: nat): (r: nat)
    requires n > 0
    ensures r < n
  {
    var index := p * n / 100;
    if index < n - 1 then index else n - 1
  }

  lemma PercentileIsElement(ds: seq<real>, p: nat)
    requires ds != []
    ensures Percentile(ds, p) in ds
    ensures Min(ds) <= Percentile(ds, p) <= Max(ds)
  {
    var sd := Sort(ds);
    assert sd[Rank(p, |ds|)] in sd;
  }

  /** A higher percentile is never smaller. */
  lemma PercentileMonotone(ds: seq<real>, p: nat, q: nat)
    requires p <= q
    ensures Percentile(ds, p) <= Percentile(ds, q)
  {
    if ds != [] {
      SortSorted(ds);
      RankMonotone(p, q, |ds|);
    }
  }

  lemma RankMonotone(p: nat, q: nat, n: nat)
    requires p <= q && n > 0
    ensures Rank(p, n) <= Rank(q, n)
  {
    MulMonotone(p, q, n);
    DivMonotone(p * n, q * n);
  }

  /** The 0th percentile takes the first rank and the 100th the last. */
  lemma RankExtremes(n: nat)
    requires n > 0
    ensures Rank(0, n) == 0 && Rank(100, n) == n - 1
  {
    assert 100 * n / 100 == n;
  }

  lemma MulMonotone(a: nat, b: nat, n: nat)
    requires a <= b
    ensures a * n <= b * n
  {
    assert b * n == a * n + (b - a) * n;
  }

  lemma DivMonotone(x: nat, y: nat)
    requires x <= y
    ensures x / 100 <= y / 100
  {
  }

  /** The 0th percentile is the minimum and the 100th the maximum. */
  lemma PercentileExtremes(ds: seq<real>)
    requires ds != []
    ensures Percentile(ds, 0) == Min(ds)
    ensures Percentile(ds, 100) == Max(ds)
  {
    RankExtremes(|ds|);
    LowestRankIsMin(ds);
    HighestRankIsMax(ds);
  }

  lemma LowestRankIsMin(ds: seq<real>)
    requires ds != []
    ensures Sort(ds)[0] == Min(ds)
  {
    SortSorted(ds);
    FirstOfSortedIsMin(Sort(ds), ds);
  }

  lemma HighestRankIsMax(ds: seq<real>)
    requires ds != []
    ensures Sort(ds)[|ds| - 1] == Max(ds)
  {
    SortSorted(ds);
    LastOfSortedIsMax(Sort(ds), ds);
  }

  /** A sorted arrangement of the data starts with its minimum... */
  lemma FirstOfSortedIsMin(sd: seq<real>, ds: seq<real>)
    requires ds != [] && Sorted(sd) && |sd| == |ds|
    requires forall y :: y in sd <==> y in ds
    ensures sd[0] == Min(ds)
  {
    MinMaxAreElements(ds);
    assert sd[0] in ds;
    var i :| 0 <= i < |sd| && sd[i] == Min(ds);
    assert i == 0 || sd[0] <= sd[i];
  }

  /** ... and ends with its maximum. */
  lemma LastOfSortedIsMax(sd: seq<real>, ds: seq<real>)
    requires ds != [] && Sorted(sd) && |sd| == |ds|
    requires forall y :: y in sd <==> y in ds
    ensures sd[|sd| - 1] == Max(ds)
  {
    MinMaxAreElements(ds);
    var last := |sd| - 1;
    assert sd[last] in ds;
    var j :| 0 <= j < |sd| && sd[j] == Max(ds);
    assert j == last || sd[j] <= sd[last];
  }

  // ---------------------------------------------------------------------
  // The recent window and the summary

  /** The metrics whose timestamp is at or after `cutoff`, in history order. */
  function Recent(h: seq<Metric>, cutoff: real): (r: seq<Metric>)
    ensures |r| <= |h|
    ensures forall m :: m in r <==> m in h && m.timestamp >= cutoff
  {
    if h == [] then []
    else (if h[0].timestamp >= cutoff then [h[0]] else []) + Recent(h[1..], cutoff)
  }

  function Durations(ms: seq<Metric>): (r: seq<real>)
    ensures |r| == |ms| && forall i :: 0 <= i < |ms| ==> r[i] == ms[i].duration
  {
    seq(|ms|, i requires 0 <= i < |ms| => ms[i].duration)
  }

  function CountSuccess(ms: seq<Metric>): (r: nat)
    ensures r <= |ms|
  {
    if ms == [] then 0 else (if ms[0].success then 1 else 0) + CountSuccess(ms[1..])
  }

  function CountHits(ms: seq<Metric>): (r: nat)
    ensures r <= |ms|
  {
    if ms == [] then 0 else (if ms[0].cacheHit then 1 else 0) + CountHits(ms[1..])
  }

  /** One entry of `_get_operation_breakdown`. */
  datatype OpStats = OpStats(count: nat, avgDuration: real, successRate: real)

  function StatsOf(group: seq<Metric>): OpStats
    requires group != []
  {
    OpStats(|group|, Sum(Durations(group)) / |group| as real,
            CountSuccess(group) as real / |group| as real)
  }

  /** The metrics of one operation, in order. */
  function Of(ms: seq<Metric>, op: string): (r: seq<Metric>)
    ensures |r| <= |ms|
    decreases |ms|
  {
    if ms == [] then []
    else
      var last := ms[|ms| - 1];
      assert ms == ms[..|ms| - 1] + [last];
      Of(ms[..|ms| - 1], op) + (if last.operation == op then [last] else [])
  }

  predicate Distinct(s: seq<string>)
  {
    forall i, j :: 0 <= i < j < |s| ==> s[i] != s[j]
  }

  /** The operation names in order of first appearance: the key order of the
      `defaultdict` the breakdown builds. */
  function OpNames(ms: seq<Metric>): (r: seq<string>)
    ensures Distinct(r)
    decreases |ms|
  {
    if ms == [] then []
    else
      var prev := OpNames(ms[..|ms| - 1]);
      var last := ms[|ms| - 1];
      assert ms == ms[..|ms| - 1] + [last];
      if last.operation in prev then prev
      else
        assert forall i :: 0 <= i < |prev| ==> (prev + [last.operation])[i] == prev[i];
        prev + [last.operation]
  }

  /** The group of `op` holds exactly the window's metrics of that operation. */
  lemma {:induction false} OfMembers(ms: seq<Metric>, op: string)
    ensures forall m :: m in Of(ms, op) <==> m in ms && m.operation == op
    decreases |ms|
  {
    if ms != [] {
      var last := ms[|ms| - 1];
      assert ms == ms[..|ms| - 1] + [last];
      OfMembers(ms[..|ms| - 1], op);
    }
  }

  /** The names are exactly the operations that occur in the window. */
  lemma {:induction false} OpNamesOccur(ms: seq<Metric>)
    ensures forall n :: n in OpNames(ms) <==> exists i :: 0 <= i < |ms| && ms[i].operation == n
    decreases |ms|
  {
    if ms != [] {
      var prefix := ms[..|ms| - 1];
      OpNamesOccur(prefix);
      assert forall i :: 0 <= i < |prefix| ==> prefix[i] == ms[i];
    }
  }

  /** An operation has metrics exactly when it is among the names. */
  lemma {:induction false} OfEmptyIff(ms: seq<Metric>, op: string)
    ensures Of(ms, op) == [] <==> op !in OpNames(ms)
    decreases |ms|
  {
    if ms != [] {
      var init := ms[..|ms| - 1];
      OfEmptyIff(init, op);
    }
  }

  /** The breakdown entries for the given operation names, in that order. */
  function BreakdownOf(ms: seq<Metric>, names: seq<string>): (r: seq<(string, OpStats)>)
    requires forall n :: n in names ==> n in OpNames(ms)
    ensures |r| == |names| && forall k :: 0 <= k < |r| ==> r[k].0 == names[k]
    decreases |names|
  {
    if names == [] then []
    else
      var op := names[|names| - 1];
      var g := Of(ms, op);
      OfEmptyIff(ms, op);
      BreakdownOf(ms, names[..|names| - 1]) + [(op, StatsOf(g))]
  }

  lemma BreakdownOfSnoc(ms: seq<Metric>, names: seq<string>, op: string)
    requires forall n :: n in names ==> n in OpNames(ms)
    requires op in OpNames(ms) && Of(ms, op) != []
    ensures forall n :: n in names + [op] ==> n in OpNames(ms)
    ensures BreakdownOf(ms, names + [op]) == BreakdownOf(ms, names) + [(op, StatsOf(Of(ms, op)))]
  {
    assert (names + [op])[..|names|] == names;
  }

  /** `_get_operation_breakdown(ms)`. */
  function Breakdown(ms: seq<Metric>): seq<(string, OpStats)>
  {
    BreakdownOf(ms, OpNames(ms))
  }

  function TotalCount(b: seq<(string, OpStats)>): nat
  {
    if b == [] then 0 else TotalCount(b[..|b| - 1]) + b[|b| - 1].1.count
  }

  /** `get_performance_summary`: either the error for an empty window or the statistics. */
  datatype PerformanceSummary =
    | NoMetrics(error: string)
    | Summary(
        timeWindow: int,
        totalRequests: nat,
        successfulRequests: nat,
        successRate: real,
        cacheHitRate: real,
        avgResponseTime: real,
        minResponseTime: real,
        maxResponseTime: real,
        p95ResponseTime: real,
        p99ResponseTime: real,
        operations: seq<(string, OpStats)>)

  const NoMetricsMessage: string := "No metrics available for the specified time window"

  /** The summary of the metrics `ms` that fall inside the window. */
  function Summarize(ms: seq<Metric>, timeWindow: int): PerformanceSummary
  {
    if ms == [] then NoMetrics(NoMetricsMessage)
    else
      var ds := Durations(ms);
      var total := |ms|;
      Summary(timeWindow, total, CountSuccess(ms),
              CountSuccess(ms) as real / total as real,
              CountHits(ms) as real / total as real,
              Sum(ds) / |ds| as real, Min(ds), Max(ds),
              Percentile(ds, 95), Percentile(ds, 99),
              Breakdown(ms))
  }

  // ---------------------------------------------------------------------
  // Properties of the breakdown and the summary

  /** The number of metrics of operation `op` among `ms`. */
  function CountOp(ms: seq<Metric>, op: string): nat
  {
    |Of(ms, op)|
  }

  function SumCounts(ms: seq<Metric>, names: seq<string>): nat
  {
    if names == [] then 0 else SumCounts(ms, names[..|names| - 1]) + CountOp(ms, names[|names| - 1])
  }

  lemma {:induction false} SumCountsSnoc(ms: seq<Metric>, m: Metric, names: seq<string>)
    requires Distinct(names)
    ensures SumCounts(ms + [m], names) == SumCounts(ms, names) + (if m.operation in names then 1 else 0)
    decreases |names|
  {
    if names != [] {
      var init := names[..|names| - 1];
      var op := names[|names| - 1];
      assert Distinct(init);
      SumCountsSnoc(ms, m, init);
      assert (ms + [m])[..|ms + [m]| - 1] == ms;
      assert m.operation in names <==> m.operation in init || m.operation == op;
      assert !(op in init);
    }
  }

  lemma {:induction false} SumCountsAbsent(ms: seq<Metric>, names: seq<string>, op: string)
    requires op !in names
    ensures SumCounts(ms, names + [op]) == SumCounts(ms, names) + CountOp(ms, op)
  {
    assert (names + [op])[..|names + [op]| - 1] == names;
  }

  lemma {:induction false} SumCountsZero(names: seq<string>)
    ensures SumCounts([], names) == 0
  {
    if names != [] {
      SumCountsZero(names[..|names| - 1]);
    }
  }

  /** Counting the metrics per operation name accounts for every metric once. */
  lemma {:induction false} OpCountsCoverAll(ms: seq<Metric>)
    ensures SumCounts(ms, OpNames(ms)) == |ms|
    decreases |ms|
  {
    if ms == [] {
      SumCountsZero(OpNames(ms));
    } else {
      var init := ms[..|ms| - 1];
      var m := ms[|ms| - 1];
      assert ms == init + [m];
      OpCountsCoverAll(init);
      var prev := OpNames(init);
      SumCountsSnoc(init, m, prev);
      if m.operation !in prev {
        SumCountsAbsent(ms, prev, m.operation);
        OfEmptyIff(init, m.operation);
        OfSnoc(init, m, m.operation);
        assert CountOp(ms, m.operation) == 1;
      }
    }
  }

  lemma {:induction false} TotalCountOf(ms: seq<Metric>, names: seq<string>)
    requires forall n :: n in names ==> n in OpNames(ms)
    ensures TotalCount(BreakdownOf(ms, names)) == SumCounts(ms, names)
    decreases |names|
  {
    if names != [] {
      var init := names[..|names| - 1];
      assert forall n :: n in init ==> n in names;
      TotalCountOf(ms, init);
      var b := BreakdownOf(ms, names);
      assert b[..|b| - 1] == BreakdownOf(ms, init);
    }
  }

  /** The breakdown lists each operation once, in order of first appearance,
      and its counts add up to the number of metrics. */
  lemma BreakdownCoversAll(ms: seq<Metric>)
    ensures |Breakdown(ms)| == |OpNames(ms)|
    ensures forall k :: 0 <= k < |Breakdown(ms)| ==>
              Breakdown(ms)[k].0 == OpNames(ms)[k] && Breakdown(ms)[k].1.count == CountOp(ms, OpNames(ms)[k])
    ensures TotalCount(Breakdown(ms)) == |ms|
  {
    TotalCountOf(ms, OpNames(ms));
    OpCountsCoverAll(ms);
    BreakdownEntries(ms, OpNames(ms));
  }

  lemma {:induction false} BreakdownEntries(ms: seq<Metric>, names: seq<string>)
    requires forall n :: n in names ==> n in OpNames(ms)
    ensures forall k :: 0 <= k < |names| ==> BreakdownOf(ms, names)[k].1.count == CountOp(ms, names[k])
    decreases |names|
  {
    if names != [] {
      var init := names[..|names| - 1];
      assert forall n :: n in init ==> n in names;
      BreakdownEntries(ms, init);
      var b := BreakdownOf(ms, names);
      forall k | 0 <= k < |names| ensures b[k].1.count == CountOp(ms, names[k]) {
        if k < |init| {
          assert b[k] == BreakdownOf(ms, init)[k];
        }
      }
    }
  }

  /** The summary's rates are fractions, its mean and percentiles lie between
      the fastest and the slowest response, the 95th percentile does not
      exceed the 99th, and the breakdown accounts for every request. */
  lemma SummaryBounds(ms: seq<Metric>, timeWindow: int)
    ensures Summarize(ms, timeWindow).NoMetrics? <==> ms == []
    ensures Summarize(ms, timeWindow).NoMetrics? ==> Summarize(ms, timeWindow).error == NoMetricsMessage
    ensures var s := Summarize(ms, timeWindow);
            s.Summary? ==>
              && s.timeWindow == timeWindow
              && s.totalRequests == |ms| && s.successfulRequests <= s.totalRequests
              && 0.0 <= s.successRate <= 1.0 && 0.0 <= s.cacheHitRate <= 1.0
              && s.minResponseTime <= s.avgResponseTime <= s.maxResponseTime
              && s.minResponseTime <= s.p95ResponseTime <= s.p99ResponseTime <= s.maxResponseTime
              && TotalCount(s.operations) == s.totalRequests
  {
    if ms != [] {
      var ds := Durations(ms);
      MeanWithin(ds, Min(ds), Max(ds));
      PercentileIsElement(ds, 95);
      PercentileIsElement(ds, 99);
      PercentileMonotone(ds, 95, 99);
      BreakdownCoversAll(ms);
      FractionWithin(CountSuccess(ms), |ms|);
      FractionWithin(CountHits(ms), |ms|);
    }
  }

  // ---------------------------------------------------------------------
  // The monitor

  class PerformanceMonitor {
    var history: seq<Metric>

    ghost predicate Valid()
      reads this
    {
      |history| <= MaxHistory
    }

    constructor()
      ensures Valid() && history == []
    {
      history := [];
    }

    /** `record_metric`: appends to the bounded history and returns the
        alerts `_check_alerts` logs for the metric. */
    method RecordMetric(m: Metric) returns (alerts: seq<Alert>)
      requires Valid()
      modifies this
      ensures Valid()
      ensures history == Appended(old(history), m, MaxHistory)
      ensures alerts == Alerts(m)
    {
      history := history + [m];
      if |history| > MaxHistory {
        history := history[1..];
      }
      alerts := Alerts(m);
    }

    /** `get_performance_summary(time_window)` read at clock time `now`. */
    method GetPerformanceSummary(now: real, timeWindow: int) returns (r: PerformanceSummary)
      ensures r == Summarize(Recent(history, now - timeWindow as real), timeWindow)
    {
      var cutoff := now - timeWindow as real;
      var recent := Recent(history, cutoff);
      assert recent == Recent(history, now - timeWindow as real);
      if recent == [] {
        r := NoMetrics(NoMetricsMessage);
      } else {
        var ds := Durations(recent);
        var total := |recent|;
        var successful := CountSuccess(recent);
        var operations := OperationBreakdown(recent);
        r := Summary(timeWindow, total, successful,
                     successful as real / total as real,
                     CountHits(recent) as real / total as real,
                     Sum(ds) / |ds| as real, Min(ds), Max(ds),
                     Percentile(ds, 95), Percentile(ds, 99),
                     operations);
      }
    }
  }

  lemma OfSnoc(ms: seq<Metric>, m: Metric, op: string)
    ensures Of(ms + [m], op) == Of(ms, op) + (if m.operation == op then [m] else [])
  {
    assert (ms + [m])[..|ms + [m]| - 1] == ms;
  }

  lemma OpNamesSnoc(ms: seq<Metric>, m: Metric)
    ensures OpNames(ms + [m]) == if m.operation in OpNames(ms) then OpNames(ms) else OpNames(ms) + [m.operation]
  {
    assert (ms + [m])[..|ms + [m]| - 1] == ms;
  }

  /** One step of the grouping loop: appending a metric to its operation's
      group (adding the operation as a new key the first time) keeps the
      dictionary equal to the grouping of the longer prefix. */
  lemma GroupStep(ms: seq<Metric>, m: Metric, operations: map<string, seq<Metric>>, order: seq<string>,
                  grouped: map<string, seq<Metric>>, order': seq<string>)
    requires order == OpNames(ms)
    requires operations.Keys == set op | op in order
    requires forall op :: op in operations ==> operations[op] == Of(ms, op)
    requires grouped == operations[m.operation := (if m.operation in operations then operations[m.operation] else []) + [m]]
    requires order' == if m.operation in operations then order else order + [m.operation]
    ensures order' == OpNames(ms + [m])
    ensures grouped.Keys == set op | op in order'
    ensures forall op :: op in grouped ==> grouped[op] == Of(ms + [m], op)
  {
    OpNamesSnoc(ms, m);
    var group := if m.operation in operations then operations[m.operation] else [];
    assert group == Of(ms, m.operation) by {
      if m.operation !in operations {
        OfEmptyIff(ms, m.operation);
      }
    }
    forall op | op in grouped
      ensures grouped[op] == Of(ms + [m], op)
    {
      OfSnoc(ms, m, op);
      if op != m.operation {
        assert grouped[op] == operations[op];
      }
    }
  }

  /** The grouping loop of `_get_operation_breakdown`: a dictionary from each
      operation to its metrics, and the order in which its keys were added. */
  method GroupByOperation(ms: seq<Metric>) returns (operations: map<string, seq<Metric>>, order: seq<string>)
    ensures order == OpNames(ms)
    ensures operations.Keys == set op | op in order
    ensures forall op :: op in operations ==> operations[op] == Of(ms, op)
  {
    operations := map[];
    order := [];
    for i := 0 to |ms|
      invariant order == OpNames(ms[..i])
      invariant operations.Keys == set op | op in order
      invariant forall op :: op in operations ==> operations[op] == Of(ms[..i], op)
    {
      var m := ms[i];
      assert ms[..i + 1] == ms[..i] + [m];
      ghost var (before, orderBefore) := (operations, order);
      var group := if m.operation in operations then operations[m.operation] else [];
      if m.operation !in operations {
        order := order + [m.operation];
      }
      operations := operations[m.operation := group + [m]];
      GroupStep(ms[..i], m, before, orderBefore, operations, order);
    }
    assert ms[..|ms|] == ms;
  }

  /** `_get_operation_breakdown`: groups the metrics by operation (first
      appearance fixes the key order), then summarises each group. */
  method OperationBreakdown(ms: seq<Metric>) returns (r: seq<(string, OpStats)>)
    ensures r == Breakdown(ms)
  {
    var operations, order := GroupByOperation(ms);
    r := [];
    for k := 0 to |order|
      invariant forall n :: n in order[..k] ==> n in OpNames(ms)
      invariant r == BreakdownOf(ms, order[..k])
    {
      var op := order[k];
      assert op in operations;
      assert order[..k + 1] == order[..k] + [op];
      OfEmptyIff(ms, op);
      BreakdownOfSnoc(ms, order[..k], op);
      r := r + [(op, StatsOf(operations[op]))];
    }
    assert order[..|order|] == order;
  }
}
