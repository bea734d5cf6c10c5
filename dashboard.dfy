/**
 * The decision logic of the real-time dashboard (dashboard_system.py):
 * the bounded in-memory metrics cache of MetricsStorage, the baselines
 * and anomaly classification of BaselineTracker, and the threshold
 * table, active alerts, data export and performance report of
 * RealTimeDashboard.  The SQLite tables behind storage and baselines are
 * not modelled: what a query would return is passed in as a parameter,
 * and the clock is a `now` parameter in seconds.
 */
module Dashboard {
  import opened Common

  /** A MetricPoint; tags stay an uninterpreted map. */
  datatype MetricPoint = MetricPoint(timestamp: real, metricName: string, value: real, tags: map<string, string>)

  /** What the cache holds: the point and the session it was stored under. */
  datatype CachedMetric = CachedMetric(metric: MetricPoint, session: Option<string>)

  // ------------------------------------------------------------ the cache

  /** cache_size */
  const CacheSize: nat := 1000

  /** What a deque with maximum length `n` holds after receiving `s`: its last `n` elements. */
  function KeepLast<T>(s: seq<T>, n: nat): seq<T>
  {
    if |s| <= n then s else s[|s| - n..]
  }

  /** The cache never exceeds its bound and holds the most recent entries, in arrival order. */
  lemma KeepLastIsRecentSuffix<T>(s: seq<T>, n: nat)
    ensures |KeepLast(s, n)| == if |s| <= n then |s| else n
    ensures s == s[..|s| - |KeepLast(s, n)|] + KeepLast(s, n)
  {
  }

  /** Trimming after every append is the same as trimming once at the end. */
  lemma KeepLastAppend<T>(s: seq<T>, x: T, n: nat)
    requires n > 0
    ensures KeepLast(KeepLast(s, n) + [x], n) == KeepLast(s + [x], n)
  {
    if |s| > n {
      var t := s[|s| - n..];
      assert (t + [x])[|t + [x]| - n..] == (s + [x])[|s + [x]| - n..];
    } else if |s| == n {
      assert (s + [x])[|s + [x]| - n..] == s[1..] + [x];
    }
  }

  /** The in-memory part of MetricsStorage: a deque with maxlen 1000. */
  class MetricsCache {
    const capacity: nat
    var entries: seq<CachedMetric>

    ghost predicate Valid()
      reads this
    {
      0 < capacity && |entries| <= capacity
    }

    constructor ()
      ensures capacity == CacheSize && entries == [] && Valid()
    {
      capacity := CacheSize;
      entries := [];
    }

    /** metrics_cache.append: at capacity the oldest entry is dropped. */
    method Append(m: CachedMetric)
      requires Valid()
      modifies this
      ensures Valid()
      ensures entries == KeepLast(old(entries) + [m], capacity)
    {
      if |entries| == capacity {
        entries := entries[1..] + [m];
      } else {
        entries := entries + [m];
      }
    }

    /** store_metrics_batch: the batch is appended in order. */
    method AppendBatch(ms: seq<CachedMetric>)
      requires Valid()
      modifies this
      ensures Valid()
      ensures entries == KeepLast(old(entries) + ms, capacity)
    {
      ghost var start := entries;
      var i := 0;
      while i < |ms|
        invariant 0 <= i <= |ms|
        invariant Valid()
        invariant entries == KeepLast(start + ms[..i], capacity)
      {
        KeepLastAppend(start + ms[..i], ms[i], capacity);
        assert start + ms[..i + 1] == start + ms[..i] + [ms[i]];
        Append(ms[i]);
        i := i + 1;
      }
      assert ms[..i] == ms;
    }
  }

  // ----------------------------------------------------- anomaly detection

  /** A baseline: the mean of the history and its 95% confidence interval. */
  datatype Baseline = Baseline(value: real, confidenceInterval: real)

  datatype Severity = Low | Medium | High

  function SeverityName(s: Severity): string
  {
    match s
    case Low => "low"
    case Medium => "medium"
    case High => "high"
  }

  function Rank(s: Severity): nat
  {
    match s
    case Low => 0
    case Medium => 1
    case High => 2
  }

  datatype AnomalyResult =
    | InsufficientData
    | Assessed(isAnomaly: bool, severity: Severity, deviation: real, threshold: real, baselineValue: real, current: real)

  /** calculate_baseline needs at least this many points. */
  const MinBaselinePoints: nat := 10

  function Abs(x: real): real
  {
    if x < 0.0 then -x else x
  }

  /** The classification of detect_anomalies against a baseline. */
  function Assess(b: Baseline, current: real): AnomalyResult
  {
    var deviation := Abs(current - b.value);
    var anomalous := deviation > b.confidenceInterval;
    Assessed(anomalous,
             if deviation > b.confidenceInterval * 2.0 then High else if anomalous then Medium else Low,
             deviation, b.confidenceInterval, b.value, current)
  }

  /**
   * A value is anomalous exactly when it is further from the baseline
   * than the interval; it is high severity when further than twice the
   * interval, which always makes it anomalous, and low severity exactly
   * when it is not anomalous.
   */
  lemma AssessSeverity(b: Baseline, current: real)
    ensures var r := Assess(b, current);
      && r.Assessed? && r.deviation >= 0.0
      && (r.isAnomaly <==> Abs(current - b.value) > b.confidenceInterval)
      && (r.severity == High <==> Abs(current - b.value) > 2.0 * b.confidenceInterval)
      && (r.severity == High ==> r.isAnomaly)
      && (r.severity == Low <==> !r.isAnomaly)
  {
  }

  /** A value further from the baseline never gets a lower severity. */
  lemma SeverityMonotone(b: Baseline, x: real, y: real)
    requires Abs(x - b.value) <= Abs(y - b.value)
    ensures Rank(Assess(b, x).severity) <= Rank(Assess(b, y).severity)
  {
  }

  function Mean(s: seq<real>): real
    requires s != []
  {
    SumReal(s) / |s| as real
  }

  /**
   * detect_anomalies with its baseline table: a known baseline is used as
   * it is; otherwise one is calculated from `history`, the metric's
   * stored values, and kept — unless there are fewer than 10 of them.
   * `interval` stands for 1.96 standard deviations of the history, whose
   * square root is not modelled.
   */
  function Detect(baselines: map<string, Baseline>, metric: string, current: real, history: seq<real>, interval: real)
    : (AnomalyResult, map<string, Baseline>)
  {
    if metric in baselines then (Assess(baselines[metric], current), baselines)
    else if |history| < MinBaselinePoints then (InsufficientData, baselines)
    else
      var b := Baseline(Mean(history), interval);
      (Assess(b, current), baselines[metric := b])
  }

  /** With fewer than 10 points and no baseline nothing is anomalous and nothing is stored; a stored baseline never changes. */
  lemma DetectBaselines(baselines: map<string, Baseline>, metric: string, current: real, history: seq<real>, interval: real)
    ensures var (r, after) := Detect(baselines, metric, current, history, interval);
      && (metric !in baselines && |history| < 10 ==> r == InsufficientData && after == baselines)
      && (r.InsufficientData? ==> metric !in baselines && |history| < 10)
      && (forall m :: m in baselines ==> m in after && after[m] == baselines[m])
      && (forall m :: m in after && m !in baselines ==> m == metric && after[m] == Baseline(Mean(history), interval))
      && (r.Assessed? ==> metric in after && r == Assess(after[metric], current))
  {
  }

  /** BaselineTracker: its table of baselines per metric. */
  class BaselineTracker {
    var baselines: map<string, Baseline>

    constructor (loaded: map<string, Baseline>)
      ensures baselines == loaded
    {
      baselines := loaded;
    }

    method DetectAnomalies(metric: string, current: real, history: seq<real>, interval: real) returns (r: AnomalyResult)
      modifies this
      ensures (r, baselines) == Detect(old(baselines), metric, current, history, interval)
    {
      if metric in baselines {
        r := Assess(baselines[metric], current);
      } else if |history| < MinBaselinePoints {
        r := InsufficientData;
      } else {
        var b := Baseline(SumReal(history) / |history| as real, interval);
        baselines := baselines[metric := b];
        r := Assess(b, current);
      }
    }
  }

  // ------------------------------------------------------------ thresholds

  /** An AlertThreshold; duration is never consulted. */
  datatype AlertThreshold = AlertThreshold(metricName: string, operator: string, value: real, severity: string, duration: int)

  /** _check_alert_thresholds: the operator chain; an unknown operator never breaches. */
  predicate Breaches(t: AlertThreshold, value: real)
  {
    if t.operator == "gt" then value > t.value
    else if t.operator == "lt" then value < t.value
    else if t.operator == "gte" then value >= t.value
    else if t.operator == "lte" then value <= t.value
    else if t.operator == "eq" then value == t.value
    else false
  }

  datatype Comparison = Gt | Lt | Gte | Lte | Eq

  /** The operator names, as a table. */
  function ComparisonName(c: Comparison): string
  {
    match c
    case Gt => "gt"
    case Lt => "lt"
    case Gte => "gte"
    case Lte => "lte"
    case Eq => "eq"
  }

  predicate Holds(c: Comparison, x: real, y: real)
  {
    match c
    case Gt => x > y
    case Lt => x < y
    case Gte => x >= y
    case Lte => x <= y
    case Eq => x == y
  }

  /** A threshold is breached exactly when its operator names a comparison and that comparison holds. */
  lemma BreachesIffComparison(t: AlertThreshold, value: real)
    ensures Breaches(t, value) <==> exists c :: ComparisonName(c) == t.operator && Holds(c, value, t.value)
  {
    if Breaches(t, value) {
      var c := if t.operator == "gt" then Gt else if t.operator == "lt" then Lt
               else if t.operator == "gte" then Gte else if t.operator == "lte" then Lte else Eq;
      assert ComparisonName(c) == t.operator && Holds(c, value, t.value);
    }
  }

  /** An operator outside gt, lt, gte, lte and eq never fires, whatever the value. */
  lemma UnknownOperatorSilent(t: AlertThreshold, value: real)
    requires forall c :: ComparisonName(c) != t.operator
    ensures !Breaches(t, value)
  {
    BreachesIffComparison(t, value);
  }

  /** The threshold table after a series of add_alert_threshold calls. */
  function ThresholdsAfter(table: map<string, AlertThreshold>, adds: seq<AlertThreshold>): map<string, AlertThreshold>
  {
    if adds == [] then table
    else ThresholdsAfter(table, adds[..|adds| - 1])[adds[|adds| - 1].metricName := adds[|adds| - 1]]
  }

  /** The table holds, for each metric, the last threshold added for it. */
  lemma {:induction false} LastThresholdWins(table: map<string, AlertThreshold>, adds: seq<AlertThreshold>, k: nat)
    requires k < |adds|
    requires forall j :: k < j < |adds| ==> adds[j].metricName != adds[k].metricName
    ensures adds[k].metricName in ThresholdsAfter(table, adds)
    ensures ThresholdsAfter(table, adds)[adds[k].metricName] == adds[k]
  {
    if k < |adds| - 1 {
      var init := adds[..|adds| - 1];
      assert init[k] == adds[k];
      LastThresholdWins(table, init, k);
    }
  }

  /** A metric nobody added a threshold for keeps the entry it had. */
  lemma {:induction false} UntouchedThreshold(table: map<string, AlertThreshold>, adds: seq<AlertThreshold>, name: string)
    requires forall j :: 0 <= j < |adds| ==> adds[j].metricName != name
    ensures name in ThresholdsAfter(table, adds) <==> name in table
    ensures name in table ==> ThresholdsAfter(table, adds)[name] == table[name]
  {
    if adds != [] {
      UntouchedThreshold(table, adds[..|adds| - 1], name);
    }
  }

  // ---------------------------------------------------------------- alerts

  datatype AlertKind = AnomalyAlert | ThresholdAlert

  /** The alert id "<kind>_<metric>_<whole seconds>": the last underscore separates the seconds, so the parts determine it. */
  datatype AlertKey = AlertKey(kind: AlertKind, metric: string, second: int)

  /** An active alert; its title, message and timestamp text are not modelled. */
  datatype ActiveAlert = ActiveAlert(kind: AlertKind, metric: string, value: real, severity: string)

  /** _check_alert_thresholds with _trigger_threshold_alert. */
  function CheckThresholds(active: map<AlertKey, ActiveAlert>, thresholds: map<string, AlertThreshold>,
                           metric: string, value: real, now: real): map<AlertKey, ActiveAlert>
  {
    if metric in thresholds && Breaches(thresholds[metric], value) then
      active[AlertKey(ThresholdAlert, metric, Trunc(now)) := ActiveAlert(ThresholdAlert, metric, value, thresholds[metric].severity)]
    else active
  }

  /** The alerts after add_metric: an anomaly alert when the value is anomalous, then the threshold check. */
  function AlertsAfterMetric(active: map<AlertKey, ActiveAlert>, thresholds: map<string, AlertThreshold>,
                             anomaly: AnomalyResult, metric: string, value: real, now: real): map<AlertKey, ActiveAlert>
  {
    var withAnomaly :=
      if anomaly.Assessed? && anomaly.isAnomaly then
        active[AlertKey(AnomalyAlert, metric, Trunc(now)) := ActiveAlert(AnomalyAlert, metric, value, SeverityName(anomaly.severity))]
      else active;
    CheckThresholds(withAnomaly, thresholds, metric, value, now)
  }

  /**
   * Alerts are only ever added: every earlier alert id stays, an alert
   * replaced under the same id is one of this metric's alerts of this
   * second, a breached threshold raises an alert with the threshold's
   * severity, an anomaly raises one with the anomaly's severity, and
   * without either nothing changes.
   */
  lemma AlertsAfterMetricSpec(active: map<AlertKey, ActiveAlert>, thresholds: map<string, AlertThreshold>,
                              anomaly: AnomalyResult, metric: string, value: real, now: real)
    ensures var r := AlertsAfterMetric(active, thresholds, anomaly, metric, value, now);
      var tk := AlertKey(ThresholdAlert, metric, Trunc(now));
      var ak := AlertKey(AnomalyAlert, metric, Trunc(now));
      && (forall k :: k in active ==> k in r)
      && (forall k :: k in r && (k !in active || r[k] != active[k]) ==> k == tk || k == ak)
      && (metric in thresholds && Breaches(thresholds[metric], value) ==>
            tk in r && r[tk] == ActiveAlert(ThresholdAlert, metric, value, thresholds[metric].severity))
      && (anomaly.Assessed? && anomaly.isAnomaly ==>
            r[ak] == ActiveAlert(AnomalyAlert, metric, value, SeverityName(anomaly.severity)))
      && (!(metric in thresholds && Breaches(thresholds[metric], value)) && !(anomaly.Assessed? && anomaly.isAnomaly) ==> r == active)
  {
  }

  // ---------------------------------------------------------------- export

  datatype ExportFormat = Csv | Json

  /** The exported document: one row per stored metric, in storage order; its text rendering is not modelled. */
  datatype Export = Export(format: ExportFormat, rows: seq<MetricPoint>)

  datatype ExportOutcome = Exported(document: Export) | UnsupportedFormat(message: string)

  /** export_historical_data over the metrics storage returned for the range. */
  function ExportHistoricalData(metrics: seq<MetricPoint>, format: string): (r: ExportOutcome)
    ensures r.UnsupportedFormat? <==> format != "csv" && format != "json"
    ensures r.Exported? ==> r.document.rows == metrics && (r.document.format == Csv <==> format == "csv")
  {
    if format == "csv" then Exported(Export(Csv, metrics))
    else if format == "json" then Exported(Export(Json, metrics))
    else UnsupportedFormat("Unsupported format: " + format)
  }

  // ---------------------------------------------------- performance report

  /** metrics_by_name: names in first-appearance order (dict insertion order) and their values. */
  datatype Grouping = Grouping(names: seq<string>, values: map<string, seq<real>>)

  function GroupOf(ms: seq<MetricPoint>): Grouping
  {
    if ms == [] then Grouping([], map[])
    else
      var g := GroupOf(ms[..|ms| - 1]);
      var m := ms[|ms| - 1];
      if m.metricName in g.values then Grouping(g.names, g.values[m.metricName := g.values[m.metricName] + [m.value]])
      else Grouping(g.names + [m.metricName], g.values[m.metricName := [m.value]])
  }

  /** The values of the metrics named `name`, in order. */
  function ValuesNamed(ms: seq<MetricPoint>, name: string): seq<real>
  {
    if ms == [] then []
    else ValuesNamed(ms[..|ms| - 1], name) + (if ms[|ms| - 1].metricName == name then [ms[|ms| - 1].value] else [])
  }

  function ValuesOf(g: Grouping, name: string): seq<real>
  {
    if name in g.values then g.values[name] else []
  }

  /** The number of values listed under `names`. */
  function CountSum(names: seq<string>, values: map<string, seq<real>>): nat
  {
    if names == [] then 0
    else CountSum(names[..|names| - 1], values) + (if names[|names| - 1] in values then |values[names[|names| - 1]]| else 0)
  }

  predicate Distinct(names: seq<string>)
  {
    forall i, j :: 0 <= i < j < |names| ==> names[i] != names[j]
  }

  lemma {:induction false} CountSumOther(names: seq<string>, values: map<string, seq<real>>, n: string, vs: seq<real>)
    requires n !in names
    ensures CountSum(names, values[n := vs]) == CountSum(names, values)
  {
    if names != [] {
      CountSumOther(names[..|names| - 1], values, n, vs);
    }
  }

  lemma {:induction false} CountSumBump(names: seq<string>, values: map<string, seq<real>>, n: string, x: real)
    requires Distinct(names) && n in names && n in values
    ensures CountSum(names, values[n := values[n] + [x]]) == CountSum(names, values) + 1
  {
    var init := names[..|names| - 1];
    var last := names[|names| - 1];
    if last == n {
      assert n !in init;
      CountSumOther(init, values, n, values[n] + [x]);
    } else {
      assert n in init;
      CountSumBump(init, values, n, x);
    }
  }

  /**
   * The grouping lists every name once, in order of first appearance,
   * keeps each name's values in arrival order, and its counts add up to
   * the number of metrics.
   */
  lemma {:induction false} GroupSound(ms: seq<MetricPoint>)
    ensures var g := GroupOf(ms);
      && (forall n :: n in g.values <==> n in g.names)
      && Distinct(g.names)
      && (forall n :: ValuesOf(g, n) == ValuesNamed(ms, n))
      && (forall n :: n in g.values ==> g.values[n] != [])
      && CountSum(g.names, g.values) == |ms|
  {
    if ms != [] {
      var init := ms[..|ms| - 1];
      var m := ms[|ms| - 1];
      var g := GroupOf(init);
      GroupSound(init);
      if m.metricName in g.values {
        CountSumBump(g.names, g.values, m.metricName, m.value);
      } else {
        CountSumOther(g.names, g.values, m.metricName, [m.value]);
        assert g.names + [m.metricName] == GroupOf(ms).names;
        assert GroupOf(ms).names[..|GroupOf(ms).names| - 1] == g.names;
      }
    }
  }

  /** A metrics_summary entry; median and standard deviation are not modelled. */
  datatype Summary = Summary(count: nat, mean: real, min: real, max: real, range: real)

  function SummaryOf(vs: seq<real>): Summary
    requires vs != []
  {
    Summary(|vs|, Mean(vs), MinReal(vs), MaxReal(vs), MaxReal(vs) - MinReal(vs))
  }

  lemma {:induction false} SumRealBetween(s: seq<real>, lo: real, hi: real)
    requires forall k :: 0 <= k < |s| ==> lo <= s[k] <= hi
    ensures |s| as real * lo <= SumReal(s) <= |s| as real * hi
  {
    if s != [] {
      assert forall k :: 0 <= k < |s[1..]| ==> s[1..][k] == s[k + 1];
      SumRealBetween(s[1..], lo, hi);
    }
  }

  /** Each summary counts its values, and min <= mean <= max with range = max - min >= 0. */
  lemma SummaryBounds(vs: seq<real>)
    requires vs != []
    ensures var s := SummaryOf(vs);
      && s.count == |vs| && s.min <= s.mean <= s.max && s.range == s.max - s.min && s.range >= 0.0
      && (forall k :: 0 <= k < |vs| ==> s.min <= vs[k] <= s.max)
  {
    var lo, hi := MinReal(vs), MaxReal(vs);
    SumRealBetween(vs, lo, hi);
    QuotientAtLeast(SumReal(vs), |vs| as real, lo);
    QuotientAtMost(SumReal(vs), |vs| as real, hi);
  }

  /** The summaries of the listed names. */
  function SummaryMap(names: seq<string>, values: map<string, seq<real>>): map<string, Summary>
  {
    if names == [] then map[]
    else
      var last := names[|names| - 1];
      var m := SummaryMap(names[..|names| - 1], values);
      if last in values && values[last] != [] then m[last := SummaryOf(values[last])] else m
  }

  /** The summary counts of the listed names. */
  function SummaryCounts(names: seq<string>, summary: map<string, Summary>): nat
  {
    if names == [] then 0
    else SummaryCounts(names[..|names| - 1], summary)
         + (if names[|names| - 1] in summary then summary[names[|names| - 1]].count else 0)
  }

  datatype Report = Report(
    dataPoints: nat,
    alertsTriggered: nat,
    anomaliesDetected: nat,
    names: seq<string>,
    summary: map<string, Summary>)

  /** generate_performance_report over the metrics stored for the range. */
  function PerformanceReport(ms: seq<MetricPoint>, alertCount: nat): Report
  {
    var g := GroupOf(ms);
    Report(|ms|, alertCount, 0, g.names, SummaryMap(g.names, g.values))
  }

  lemma {:induction false} SummaryMapSpec(names: seq<string>, values: map<string, seq<real>>, n: string)
    requires Distinct(names)
    ensures n in SummaryMap(names, values) <==> n in names && n in values && values[n] != []
    ensures n in SummaryMap(names, values) ==> SummaryMap(names, values)[n] == SummaryOf(values[n])
    ensures SummaryCounts(names, SummaryMap(names, values)) == CountSum(names, values)
  {
    if names != [] {
      var init := names[..|names| - 1];
      var last := names[|names| - 1];
      assert Distinct(init);
      assert last !in init;
      SummaryMapSpec(init, values, n);
      SummaryMapSpec(init, values, last);
      if last in values && values[last] != [] {
        SummaryCountsOther(init, SummaryMap(init, values), last, values);
      }
    }
  }

  lemma {:induction false} SummaryCountsOther(names: seq<string>, summary: map<string, Summary>, n: string,
                                              values: map<string, seq<real>>)
    requires n !in names && n in values && values[n] != []
    ensures SummaryCounts(names, summary[n := SummaryOf(values[n])]) == SummaryCounts(names, summary)
  {
    if names != [] {
      SummaryCountsOther(names[..|names| - 1], summary, n, values);
    }
  }

  /**
   * The report's per-metric counts add up to data_points; each metric
   * name appears once, its summary counts exactly the points with that
   * name, and its extremes bound its mean.
   */
  lemma ReportSound(ms: seq<MetricPoint>, alertCount: nat, n: string)
    ensures var r := PerformanceReport(ms, alertCount);
      && SummaryCounts(r.names, r.summary) == r.dataPoints == |ms|
      && r.alertsTriggered == alertCount && r.anomaliesDetected == 0
      && Distinct(r.names)
      && (n in r.summary <==> ValuesNamed(ms, n) != [])
      && (n in r.summary ==> r.summary[n].count == |ValuesNamed(ms, n)|
                             && r.summary[n].min <= r.summary[n].mean <= r.summary[n].max
                             && r.summary[n].range == r.summary[n].max - r.summary[n].min)
  {
    var g := GroupOf(ms);
    GroupSound(ms);
    assert ValuesOf(g, n) == ValuesNamed(ms, n);
    SummaryMapSpec(g.names, g.values, n);
    if n in g.values {
      SummaryBounds(g.values[n]);
    }
  }

  // ------------------------------------------------------------ dashboard

  /** RealTimeDashboard: the storage cache, the baseline tracker, the threshold table and the active alerts. */
  class RealTimeDashboard {
    const cache: MetricsCache
    const tracker: BaselineTracker
    var alertThresholds: map<string, AlertThreshold>
    var activeAlerts: map<AlertKey, ActiveAlert>

    ghost predicate Valid()
      reads this, cache
    {
      cache.Valid()
    }

    constructor (cache: MetricsCache, tracker: BaselineTracker)
      requires cache.Valid()
      ensures this.cache == cache && this.tracker == tracker
      ensures alertThresholds == map[] && activeAlerts == map[]
      ensures Valid()
    {
      this.cache := cache;
      this.tracker := tracker;
      alertThresholds := map[];
      activeAlerts := map[];
    }

    /** add_alert_threshold: the threshold replaces any earlier one for its metric. */
    method AddAlertThreshold(t: AlertThreshold)
      modifies this
      ensures alertThresholds == ThresholdsAfter(old(alertThresholds), [t])
      ensures activeAlerts == old(activeAlerts)
    {
      alertThresholds := alertThresholds[t.metricName := t];
    }

    method CheckAlertThresholds(metric: string, value: real, now: real)
      modifies this
      ensures activeAlerts == CheckThresholds(old(activeAlerts), alertThresholds, metric, value, now)
      ensures alertThresholds == old(alertThresholds)
    {
      if metric in alertThresholds {
        var threshold := alertThresholds[metric];
        var isBreach := false;
        if threshold.operator == "gt" && value > threshold.value {
          isBreach := true;
        } else if threshold.operator == "lt" && value < threshold.value {
          isBreach := true;
        } else if threshold.operator == "gte" && value >= threshold.value {
          isBreach := true;
        } else if threshold.operator == "lte" && value <= threshold.value {
          isBreach := true;
        } else if threshold.operator == "eq" && value == threshold.value {
          isBreach := true;
        }
        if isBreach {
          activeAlerts := activeAlerts[AlertKey(ThresholdAlert, metric, Trunc(now)) :=
                                       ActiveAlert(ThresholdAlert, metric, value, threshold.severity)];
        }
      }
    }

    /**
     * add_metric at time `now`: the point goes into the cache, the
     * baseline tracker judges it against `history` (the stored values it
     * would query), and the anomaly and threshold alerts follow.
     */
    method AddMetric(metric: string, value: real, tags: map<string, string>, session: Option<string>,
                     now: real, history: seq<real>, interval: real)
      requires Valid()
      modifies this, cache, tracker
      ensures Valid()
      ensures cache.entries == KeepLast(old(cache.entries) + [CachedMetric(MetricPoint(now, metric, value, tags), session)], cache.capacity)
      ensures var (r, after) := Detect(old(tracker.baselines), metric, value, history, interval);
        && tracker.baselines == after
        && activeAlerts == AlertsAfterMetric(old(activeAlerts), alertThresholds, r, metric, value, now)
      ensures alertThresholds == old(alertThresholds)
    {
      cache.Append(CachedMetric(MetricPoint(now, metric, value, tags), session));
      var anomaly := tracker.DetectAnomalies(metric, value, history, interval);
      if anomaly.Assessed? && anomaly.isAnomaly {
        activeAlerts := activeAlerts[AlertKey(AnomalyAlert, metric, Trunc(now)) :=
                                     ActiveAlert(AnomalyAlert, metric, value, SeverityName(anomaly.severity))];
      }
      CheckAlertThresholds(metric, value, now);
    }

    /** generate_performance_report, over `metrics`, the points storage returns for the range. */
    method GeneratePerformanceReport(metrics: seq<MetricPoint>) returns (report: Report)
      ensures report == PerformanceReport(metrics, |activeAlerts|)
    {
      var g := GroupMetrics(metrics);
      var summary := Summarize(g);
      report := Report(|metrics|, |activeAlerts|, 0, g.names, summary);
    }
  }

  /** The grouping loop of generate_performance_report. */
  method GroupMetrics(ms: seq<MetricPoint>) returns (g: Grouping)
    ensures g == GroupOf(ms)
  {
    var names: seq<string> := [];
    var values: map<string, seq<real>> := map[];
    var i := 0;
    while i < |ms|
      invariant 0 <= i <= |ms|
      invariant Grouping(names, values) == GroupOf(ms[..i])
    {
      var m := ms[i];
      if m.metricName in values {
        values := values[m.metricName := values[m.metricName] + [m.value]];
      } else {
        names := names + [m.metricName];
        values := values[m.metricName := [m.value]];
      }
      assert ms[..i + 1][..i] == ms[..i];
      i := i + 1;
    }
    assert ms[..i] == ms;
    g := Grouping(names, values);
  }

  /** The summary loop of generate_performance_report. */
  method Summarize(g: Grouping) returns (summary: map<string, Summary>)
    ensures summary == SummaryMap(g.names, g.values)
  {
    summary := map[];
    var i := 0;
    while i < |g.names|
      invariant 0 <= i <= |g.names|
      invariant summary == SummaryMap(g.names[..i], g.values)
    {
      var name := g.names[i];
      if name in g.values && g.values[name] != [] {
        var vs := g.values[name];
        var lo := MinReal(vs);
        var hi := MaxReal(vs);
        summary := summary[name := Summary(|vs|, SumReal(vs) / |vs| as real, lo, hi, hi - lo)];
      }
      assert g.names[..i + 1][..i] == g.names[..i];
      i := i + 1;
    }
    assert g.names[..i] == g.names;
  }
}
