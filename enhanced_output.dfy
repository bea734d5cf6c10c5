/**
 * The analytics EnhancedOutputSystem derives from a harness report
 * (enhanced_output_system.py): the stability score and failure-pattern
 * analysis of the stability metrics, the ordered error classification,
 * the three alert dimensions with their critical and warning tiers, the
 * recommendation lists, and the audience filter applied before output.
 *
 * Two of these raise on reports the harness does produce.  The alerts
 * divide by max_concurrent_achieved, which is 0 when no stream ever
 * connected; the stability metrics read a list that is only bound when
 * the report has streams.  GenerateAlertsAsWritten and
 * StabilityMetricsAsWritten model the code as written; GenerateAlerts
 * and StabilityMetricsOf are the evidently intended versions.
 */
module EnhancedOutput {
  import opened Common
  import opened ReportData

  /** What a call produced: a value, or an exception that escapes it. */
  datatype Outcome<T> = Done(value: T) | Raised(error: string)

  // ----------------------------------------------------- stability score

  /** One stream's score: 100, 50 or 0 by status, less 10 per reconnection up to 50, never below 0. */
  function StreamScore(s: StreamEntry): (n: nat)
    ensures n <= 100
  {
    var base := match s.status
      case Connected => 100
      case Disconnected => 50
      case _ => 0;
    var penalty := if s.reconnections * 10 < 50 then s.reconnections * 10 else 50;
    if base - penalty > 0 then base - penalty else 0
  }

  /** The scores of a prefix of the streams, summed in order. */
  function TotalScore(streams: seq<StreamEntry>): nat
  {
    if streams == [] then 0
    else TotalScore(streams[..|streams| - 1]) + StreamScore(streams[|streams| - 1])
  }

  /** _calculate_stability_score: the mean stream score, 0 for no streams. */
  function MeanScore(streams: seq<StreamEntry>): real
  {
    if streams == [] then 0.0 else TotalScore(streams) as real / |streams| as real
  }

  lemma {:induction false} TotalScoreBound(streams: seq<StreamEntry>)
    ensures TotalScore(streams) <= 100 * |streams|
  {
    if streams != [] {
      TotalScoreBound(streams[..|streams| - 1]);
    }
  }

  /** The stability score is a percentage. */
  lemma MeanScoreBounds(streams: seq<StreamEntry>)
    ensures 0.0 <= MeanScore(streams) <= 100.0
  {
    if streams != [] {
      TotalScoreBound(streams);
      QuotientAtMost(TotalScore(streams) as real, |streams| as real, 100.0);
    }
  }

  /** More reconnections never raise a stream's score; five or more cost the full 50. */
  lemma ScoreFallsWithReconnections(s: StreamEntry, more: nat)
    requires more >= s.reconnections
    ensures StreamScore(s.(reconnections := more)) <= StreamScore(s)
    ensures more >= 5 ==> StreamScore(s.(reconnections := more)) == if s.status == Connected then 50 else 0
  {
  }

  /** A fully connected test without reconnections scores 100. */
  lemma {:induction false} AllConnectedScoresFull(streams: seq<StreamEntry>)
    requires forall k :: 0 <= k < |streams| ==> streams[k].status == Connected && streams[k].reconnections == 0
    ensures TotalScore(streams) == 100 * |streams|
  {
    if streams != [] {
      var init := streams[..|streams| - 1];
      assert forall k :: 0 <= k < |init| ==> init[k] == streams[k];
      AllConnectedScoresFull(init);
      assert StreamScore(streams[|streams| - 1]) == 100;
    }
  }

  /** ... and its stability score is 100. */
  lemma AllConnectedScoresHundred(streams: seq<StreamEntry>)
    requires streams != []
    requires forall k :: 0 <= k < |streams| ==> streams[k].status == Connected && streams[k].reconnections == 0
    ensures MeanScore(streams) == 100.0
  {
    AllConnectedScoresFull(streams);
    var n := |streams| as real;
    assert TotalScore(streams) as real == 100.0 * n;
    QuotientExact(TotalScore(streams) as real, n, 100.0);
  }

  /** The loop of _calculate_stability_score. */
  method StabilityScore(streams: seq<StreamEntry>) returns (score: real)
    ensures score == MeanScore(streams)
  {
    if streams == [] {
      return 0.0;
    }
    var total := 0;
    var i := 0;
    while i < |streams|
      invariant 0 <= i <= |streams|
      invariant total == TotalScore(streams[..i])
    {
      total := total + StreamScore(streams[i]);
      assert streams[..i + 1][..i] == streams[..i];
      i := i + 1;
    }
    assert streams[..i] == streams;
    score := total as real / |streams| as real;
  }

  // ------------------------------------------------ error classification

  /** The error_types keys. */
  datatype Category = Timeout | SslCertificate | ServerError | NotFound | Network | Other

  /** _categorize_error: the first matching test wins; the status codes are matched in the original text. */
  function CategorizeError(error: string): Category
  {
    var lower := Lower(error);
    if Contains(lower, "timeout") then Timeout
    else if Contains(lower, "ssl") || Contains(lower, "certificate") then SslCertificate
    else if Contains(error, "500") || Contains(lower, "internal server error") then ServerError
    else if Contains(error, "404") || Contains(lower, "not found") then NotFound
    else if Contains(lower, "network") || Contains(lower, "connection") then Network
    else Other
  }

  /** A keyword test: in the lower-cased message or in the message as it is. */
  datatype Probe = InLower(word: string) | InText(word: string)

  predicate Hit(error: string, p: Probe)
  {
    match p
    case InLower(w) => Contains(Lower(error), w)
    case InText(w) => Contains(error, w)
  }

  /** The keywords of each category, as a table. */
  function Probes(c: Category): seq<Probe>
  {
    match c
    case Timeout => [InLower("timeout")]
    case SslCertificate => [InLower("ssl"), InLower("certificate")]
    case ServerError => [InText("500"), InLower("internal server error")]
    case NotFound => [InText("404"), InLower("not found")]
    case Network => [InLower("network"), InLower("connection")]
    case Other => []
  }

  predicate Mentions(error: string, c: Category)
  {
    exists p :: p in Probes(c) && Hit(error, p)
  }

  /** The order in which the categories are tried. */
  const Precedence: seq<Category> := [Timeout, SslCertificate, ServerError, NotFound, Network]

  /** The first category of `order` the message mentions, else Other. */
  function FirstMentioned(error: string, order: seq<Category>): Category
  {
    if order == [] then Other
    else if Mentions(error, order[0]) then order[0]
    else FirstMentioned(error, order[1..])
  }

  /** What each category's keywords test, spelled out. */
  lemma MentionsProbes(error: string)
    ensures Mentions(error, Timeout) <==> Contains(Lower(error), "timeout")
    ensures Mentions(error, SslCertificate) <==> Contains(Lower(error), "ssl") || Contains(Lower(error), "certificate")
    ensures Mentions(error, ServerError) <==> Contains(error, "500") || Contains(Lower(error), "internal server error")
    ensures Mentions(error, NotFound) <==> Contains(error, "404") || Contains(Lower(error), "not found")
    ensures Mentions(error, Network) <==> Contains(Lower(error), "network") || Contains(Lower(error), "connection")
  {
    assert Mentions(error, Timeout) <==> Hit(error, InLower("timeout"));
    assert Mentions(error, SslCertificate) <==> Hit(error, InLower("ssl")) || Hit(error, InLower("certificate"));
    assert Mentions(error, ServerError) <==> Hit(error, InText("500")) || Hit(error, InLower("internal server error"));
    assert Mentions(error, NotFound) <==> Hit(error, InText("404")) || Hit(error, InLower("not found"));
    assert Mentions(error, Network) <==> Hit(error, InLower("network")) || Hit(error, InLower("connection"));
  }

  /** The classification is the first category, in precedence order, whose keywords occur. */
  lemma CategorizeIsFirstMentioned(error: string)
    ensures CategorizeError(error) == FirstMentioned(error, Precedence)
  {
    MentionsProbes(error);
    assert FirstMentioned(error, [Network]) == if Mentions(error, Network) then Network else Other;
    assert FirstMentioned(error, [NotFound, Network]) ==
      if Mentions(error, NotFound) then NotFound else FirstMentioned(error, [Network]);
    assert FirstMentioned(error, [ServerError, NotFound, Network]) ==
      if Mentions(error, ServerError) then ServerError else FirstMentioned(error, [NotFound, Network]);
    assert FirstMentioned(error, [SslCertificate, ServerError, NotFound, Network]) ==
      if Mentions(error, SslCertificate) then SslCertificate else FirstMentioned(error, [ServerError, NotFound, Network]);
    assert FirstMentioned(error, Precedence) ==
      if Mentions(error, Timeout) then Timeout else FirstMentioned(error, [SslCertificate, ServerError, NotFound, Network]);
  }

  /** In any order, the category found is mentioned and no earlier one is; nothing mentioned gives Other. */
  lemma {:induction false} FirstMentionedWins(error: string, order: seq<Category>)
    ensures var c := FirstMentioned(error, order);
      && (c == Other <==> forall k :: 0 <= k < |order| && order[k] != Other ==> !Mentions(error, order[k]))
      && (c != Other ==> exists i :: 0 <= i < |order| && order[i] == c && Mentions(error, c)
                                     && forall k :: 0 <= k < i ==> !Mentions(error, order[k]))
  {
    if order != [] {
      FirstMentionedWins(error, order[1..]);
      var c := FirstMentioned(error, order);
      if Mentions(error, order[0]) {
        assert Probes(order[0]) != [];
        assert order[0] != Other;
      } else {
        assert forall k :: 1 <= k < |order| ==> order[k] == order[1..][k - 1];
        if c != Other {
          var i :| 0 <= i < |order[1..]| && order[1..][i] == c && Mentions(error, c)
                   && forall k :: 0 <= k < i ==> !Mentions(error, order[1..][k]);
          assert order[i + 1] == c;
          assert forall k :: 0 <= k < i + 1 ==> !Mentions(error, order[k]) by {
            forall k | 0 <= k < i + 1
              ensures !Mentions(error, order[k])
            {
              if k > 0 {
                assert order[k] == order[1..][k - 1];
              }
            }
          }
        }
      }
    }
  }

  // ------------------------------------------------------ failure patterns

  function Get(m: map<Category, nat>, c: Category): nat
  {
    if c in m then m[c] else 0
  }

  /** The inner loop: each error adds one to the count of its category. */
  function Tally(m: map<Category, nat>, errors: seq<string>): map<Category, nat>
  {
    if errors == [] then m
    else
      var t := Tally(m, errors[..|errors| - 1]);
      var c := CategorizeError(errors[|errors| - 1]);
      t[c := Get(t, c) + 1]
  }

  /** error_types: the tally over every stream's errors, in stream order. */
  function ErrorTypesOf(streams: seq<StreamEntry>): map<Category, nat>
  {
    if streams == [] then map[]
    else Tally(ErrorTypesOf(streams[..|streams| - 1]), streams[|streams| - 1].errors)
  }

  /** The number of errors classified as `c`. */
  function CountCategory(errors: seq<string>, c: Category): nat
  {
    if errors == [] then 0
    else CountCategory(errors[..|errors| - 1], c) + (if CategorizeError(errors[|errors| - 1]) == c then 1 else 0)
  }

  /** The number of errors of the streams classified as `c`. */
  function StreamCount(streams: seq<StreamEntry>, c: Category): nat
  {
    if streams == [] then 0
    else StreamCount(streams[..|streams| - 1], c) + CountCategory(streams[|streams| - 1].errors, c)
  }

  function TotalErrors(streams: seq<StreamEntry>): nat
  {
    if streams == [] then 0 else TotalErrors(streams[..|streams| - 1]) + |streams[|streams| - 1].errors|
  }

  const AllCategories: seq<Category> := [Timeout, SslCertificate, ServerError, NotFound, Network, Other]

  /** The sum of the counts of error_types. */
  function Total(m: map<Category, nat>): nat
  {
    Get(m, Timeout) + Get(m, SslCertificate) + Get(m, ServerError) + Get(m, NotFound) + Get(m, Network) + Get(m, Other)
  }

  /** Tallying counts each category's errors and creates a key only for a category that occurs. */
  lemma {:induction false} TallyCounts(m: map<Category, nat>, errors: seq<string>, c: Category)
    ensures Get(Tally(m, errors), c) == Get(m, c) + CountCategory(errors, c)
    ensures c in Tally(m, errors) <==> c in m || CountCategory(errors, c) > 0
  {
    if errors != [] {
      TallyCounts(m, errors[..|errors| - 1], c);
    }
  }

  lemma TotalBump(t: map<Category, nat>, c: Category)
    ensures Total(t[c := Get(t, c) + 1]) == Total(t) + 1
  {
    var u := t[c := Get(t, c) + 1];
    assert forall d :: d != c ==> Get(u, d) == Get(t, d);
    assert Get(u, c) == Get(t, c) + 1;
  }

  /** Tallying adds one to the total per error. */
  lemma {:induction false} TallyTotal(m: map<Category, nat>, errors: seq<string>)
    ensures Total(Tally(m, errors)) == Total(m) + |errors|
  {
    if errors != [] {
      TallyTotal(m, errors[..|errors| - 1]);
      TotalBump(Tally(m, errors[..|errors| - 1]), CategorizeError(errors[|errors| - 1]));
    }
  }

  /**
   * error_types counts every error exactly once, under its category: the
   * counts sum to the number of errors, and a category is a key exactly
   * when some error falls in it.
   */
  lemma {:induction false} ErrorTypesCount(streams: seq<StreamEntry>, c: Category)
    ensures Total(ErrorTypesOf(streams)) == TotalErrors(streams)
    ensures Get(ErrorTypesOf(streams), c) == StreamCount(streams, c)
    ensures c in ErrorTypesOf(streams) <==> StreamCount(streams, c) > 0
  {
    if streams != [] {
      var init := streams[..|streams| - 1];
      ErrorTypesCount(init, c);
      TallyTotal(ErrorTypesOf(init), streams[|streams| - 1].errors);
      TallyCounts(ErrorTypesOf(init), streams[|streams| - 1].errors, c);
    }
  }

  /** A camera_reliability entry. */
  datatype Reliability = Reliability(reconnections: nat, errorCount: nat, score: nat)

  /** max(0, 100 - 10 r - 5 e) */
  function ReliabilityScore(reconnections: nat, errorCount: nat): (n: nat)
    ensures n <= 100
    ensures n == 0 <==> 10 * reconnections + 5 * errorCount >= 100
  {
    if 100 - 10 * reconnections - 5 * errorCount > 0 then 100 - 10 * reconnections - 5 * errorCount else 0
  }

  function ReliabilityEntry(s: StreamEntry): Reliability
  {
    Reliability(s.reconnections, |s.errors|, ReliabilityScore(s.reconnections, |s.errors|))
  }

  /** camera_reliability: one entry per camera id, written in stream order, so the last stream wins. */
  function ReliabilityOf(streams: seq<StreamEntry>): (m: map<int, Reliability>)
    ensures forall id :: id in m ==> exists k :: 0 <= k < |streams| && streams[k].cameraId == id
  {
    if streams == [] then map[]
    else
      var init := streams[..|streams| - 1];
      var last := streams[|streams| - 1];
      var m := ReliabilityOf(init)[last.cameraId := ReliabilityEntry(last)];
      assert forall k :: 0 <= k < |init| ==> init[k] == streams[k];
      m
  }

  /** Every stream's camera has an entry, and it is the entry of the last stream of that camera. */
  lemma {:induction false} ReliabilityLastWins(streams: seq<StreamEntry>, k: nat)
    requires k < |streams|
    requires forall j :: k < j < |streams| ==> streams[j].cameraId != streams[k].cameraId
    ensures streams[k].cameraId in ReliabilityOf(streams)
    ensures ReliabilityOf(streams)[streams[k].cameraId] == ReliabilityEntry(streams[k])
  {
    if k < |streams| - 1 {
      var init := streams[..|streams| - 1];
      assert init[k] == streams[k];
      ReliabilityLastWins(init, k);
    }
  }

  /** The inner loop of _analyze_failure_patterns over one stream's errors. */
  method TallyErrors(m: map<Category, nat>, errors: seq<string>) returns (r: map<Category, nat>)
    ensures r == Tally(m, errors)
  {
    r := m;
    var j := 0;
    while j < |errors|
      invariant 0 <= j <= |errors|
      invariant r == Tally(m, errors[..j])
    {
      var c := CategorizeError(errors[j]);
      r := r[c := Get(r, c) + 1];
      assert errors[..j + 1][..j] == errors[..j];
      j := j + 1;
    }
    assert errors[..j] == errors;
  }

  /** _analyze_failure_patterns: error_types and camera_reliability (failure_timing is always empty). */
  method FailurePatterns(streams: seq<StreamEntry>) returns (errorTypes: map<Category, nat>, reliability: map<int, Reliability>)
    ensures errorTypes == ErrorTypesOf(streams)
    ensures reliability == ReliabilityOf(streams)
  {
    errorTypes := map[];
    reliability := map[];
    var i := 0;
    while i < |streams|
      invariant 0 <= i <= |streams|
      invariant errorTypes == ErrorTypesOf(streams[..i])
      invariant reliability == ReliabilityOf(streams[..i])
    {
      var s := streams[i];
      assert streams[..i + 1][..i] == streams[..i];
      errorTypes := TallyErrors(errorTypes, s.errors);
      reliability := reliability[s.cameraId := ReliabilityEntry(s)];
      i := i + 1;
    }
    assert streams[..i] == streams;
  }

  // ----------------------------------------------------- stability metrics

  /** analytics["stability_metrics"]["connection_stability"]. */
  datatype StabilityMetrics = StabilityMetrics(
    successRate: real,
    avgReconnections: real,
    stabilityScore: real,
    errorTypes: map<Category, nat>,
    reliability: map<int, Reliability>)

  function CountConnected(streams: seq<StreamEntry>): (n: nat)
    ensures n <= |streams|
  {
    if streams == [] then 0
    else CountConnected(streams[..|streams| - 1]) + (if streams[|streams| - 1].status == Connected then 1 else 0)
  }

  function SumReconnections(streams: seq<StreamEntry>): nat
  {
    if streams == [] then 0
    else SumReconnections(streams[..|streams| - 1]) + streams[|streams| - 1].reconnections
  }

  const UnboundCounts: string := "cannot access local variable 'reconnection_counts' where it is not associated with a value"

  /**
   * As written: reconnection_counts is only assigned inside
   * `if individual_streams:`, so a report without streams raises when the
   * stability metrics read it.
   */
  function StabilityMetricsAsWritten(streams: seq<StreamEntry>): (r: Outcome<StabilityMetrics>)
    ensures r.Raised? <==> streams == []
  {
    if streams == [] then Raised(UnboundCounts) else Done(StabilityMetricsOf(streams))
  }

  /** As evidently intended: every metric falls back to 0 for a report without streams. */
  function StabilityMetricsOf(streams: seq<StreamEntry>): (m: StabilityMetrics)
    ensures 0.0 <= m.successRate <= 100.0
    ensures streams == [] ==> m.successRate == 0.0 && m.avgReconnections == 0.0 && m.stabilityScore == 0.0
  {
    var n := |streams| as real;
    var rate := if streams == [] then 0.0 else CountConnected(streams) as real / n * 100.0;
    assert streams != [] ==> CountConnected(streams) as real / n <= 1.0 by {
      if streams != [] {
        assert CountConnected(streams) as real <= n;
        assert CountConnected(streams) as real / n <= n / n;
      }
    }
    StabilityMetrics(rate,
                     if streams == [] then 0.0 else SumReconnections(streams) as real / n,
                     MeanScore(streams), ErrorTypesOf(streams), ReliabilityOf(streams))
  }

  /** Only the empty report makes the metrics raise; otherwise both versions agree. */
  lemma MetricsAsWrittenDiffers(streams: seq<StreamEntry>)
    ensures StabilityMetricsAsWritten([]) == Raised(UnboundCounts)
    ensures streams != [] ==> StabilityMetricsAsWritten(streams) == Done(StabilityMetricsOf(streams))
    ensures StabilityMetricsOf([]).stabilityScore == 0.0
  {
  }

  // ---------------------------------------------------------------- alerts

  datatype Dimension = Performance | Stability | Resources

  /** One alert; its message, impact and advice follow from the dimension and the tier. */
  datatype Alert = Alert(dimension: Dimension, value: real)

  datatype Alerts = Alerts(critical: seq<Alert>, warning: seq<Alert>, info: seq<Alert>)

  /** The alert of dimension `d` when its condition fires. */
  function AlertIf(d: Dimension, v: real, fires: bool): seq<Alert>
  {
    if fires then [Alert(d, v)] else []
  }

  /** The alerts given an already computed reconnection rate; a warning is the `elif` below the critical threshold. */
  function AlertsFor(fps: real, rate: real, cpu: real): Alerts
  {
    Alerts(AlertIf(Performance, fps, fps < 5.0) + AlertIf(Stability, rate, rate > 0.5)
             + AlertIf(Resources, cpu, cpu > 90.0),
           AlertIf(Performance, fps, 5.0 <= fps < 15.0) + AlertIf(Stability, rate, 0.2 < rate <= 0.5)
             + AlertIf(Resources, cpu, 75.0 < cpu <= 90.0),
           [])
  }

  const DivisionByZero: string := "division by zero"

  /** As written: the reconnection rate divides by max_concurrent_achieved, which a report may hold as 0. */
  function GenerateAlertsAsWritten(report: LoadReport): (r: Outcome<Alerts>)
    ensures r.Raised? <==> report.testInfo.maxConcurrentAchieved == 0
  {
    var m := report.testInfo.maxConcurrentAchieved;
    if m == 0 then Raised(DivisionByZero)
    else
      Done(AlertsFor(report.performance.averageFps, report.performance.totalReconnections as real / m as real,
                     report.resources.averageCpuPercent))
  }

  /** The rate _generate_recommendations computes: per stream achieved, at least 1. */
  function ReconnectionRate(report: LoadReport): real
  {
    var m := report.testInfo.maxConcurrentAchieved;
    report.performance.totalReconnections as real / (if m > 1 then m else 1) as real
  }

  /** As evidently intended: the same alerts with the denominator guarded as the recommendations guard it. */
  function GenerateAlerts(report: LoadReport): Alerts
  {
    AlertsFor(report.performance.averageFps, ReconnectionRate(report), report.resources.averageCpuPercent)
  }

  /** The number of alerts of dimension `d`. */
  function CountDimension(alerts: seq<Alert>, d: Dimension): nat
  {
    if alerts == [] then 0
    else (if alerts[0].dimension == d then 1 else 0) + CountDimension(alerts[1..], d)
  }
  lemma {:induction false} CountDimensionAppend(a: seq<Alert>, b: seq<Alert>, d: Dimension)
    ensures CountDimension(a + b, d) == CountDimension(a, d) + CountDimension(b, d)
  {
    if a != [] {
      assert (a + b)[1..] == a[1..] + b;
      CountDimensionAppend(a[1..], b, d);
    } else {
      assert a + b == b;
    }
  }

  /** Three conditional alerts, one per dimension, hold one alert of a dimension exactly when its condition fires. */
  lemma ThreeAlertCounts(p: bool, s: bool, r: bool, vp: real, vs: real, vr: real, e: Dimension)
    ensures CountDimension(AlertIf(Performance, vp, p) + AlertIf(Stability, vs, s) + AlertIf(Resources, vr, r), e)
            == (if p && e == Performance then 1 else 0) + (if s && e == Stability then 1 else 0)
               + (if r && e == Resources then 1 else 0)
  {
    var x, y, z := AlertIf(Performance, vp, p), AlertIf(Stability, vs, s), AlertIf(Resources, vr, r);
    CountDimensionAppend(x + y, z, e);
    CountDimensionAppend(x, y, e);
  }

  /**
   * One alert at most per dimension, in the tier its thresholds give:
   * FPS below 5 is critical and below 15 a warning; a reconnection rate
   * above 0.5 is critical and above 0.2 a warning; CPU above 90% is
   * critical and above 75% a warning.  Nothing is ever informational.
   */
  lemma AlertTiers(fps: real, rate: real, cpu: real)
    ensures var a := AlertsFor(fps, rate, cpu);
      && a.info == []
      && CountDimension(a.critical, Performance) == (if fps < 5.0 then 1 else 0)
      && CountDimension(a.warning, Performance) == (if 5.0 <= fps < 15.0 then 1 else 0)
      && CountDimension(a.critical, Stability) == (if rate > 0.5 then 1 else 0)
      && CountDimension(a.warning, Stability) == (if 0.2 < rate <= 0.5 then 1 else 0)
      && CountDimension(a.critical, Resources) == (if cpu > 90.0 then 1 else 0)
      && CountDimension(a.warning, Resources) == (if 75.0 < cpu <= 90.0 then 1 else 0)
  {
    forall e: Dimension
      ensures CountDimension(AlertsFor(fps, rate, cpu).critical, e)
              == (if fps < 5.0 && e == Performance then 1 else 0) + (if rate > 0.5 && e == Stability then 1 else 0)
                 + (if cpu > 90.0 && e == Resources then 1 else 0)
      ensures CountDimension(AlertsFor(fps, rate, cpu).warning, e)
              == (if 5.0 <= fps < 15.0 && e == Performance then 1 else 0)
                 + (if 0.2 < rate <= 0.5 && e == Stability then 1 else 0)
                 + (if 75.0 < cpu <= 90.0 && e == Resources then 1 else 0)
    {
      ThreeAlertCounts(fps < 5.0, rate > 0.5, cpu > 90.0, fps, rate, cpu, e);
      ThreeAlertCounts(5.0 <= fps < 15.0, 0.2 < rate <= 0.5, 75.0 < cpu <= 90.0, fps, rate, cpu, e);
    }
  }

  /** Where the as-written alerts do not raise, they are the intended ones. */
  lemma AlertsAsWrittenAgree(report: LoadReport)
    requires report.testInfo.maxConcurrentAchieved > 0
    ensures GenerateAlertsAsWritten(report) == Done(GenerateAlerts(report))
  {
  }

  // ------------------------------------------------------- recommendations

  /** The recommendation items, one constructor per item the code can emit. */
  datatype Action =
    | ResolveLowFps | AddressConnectionStability
    | ComprehensiveMonitoring | OptimizeStreamingParameters
    | HorizontalScaling | PredictiveAnalytics

  datatype Priority = High | Medium | Low

  function PriorityOf(a: Action): Priority
  {
    match a
    case ResolveLowFps => High
    case AddressConnectionStability => High
    case ComprehensiveMonitoring => Medium
    case OptimizeStreamingParameters => Medium
    case HorizontalScaling => Low
    case PredictiveAnalytics => Low
  }

  datatype Recommendations = Recommendations(
    immediate: seq<Action>,
    shortTerm: seq<Action>,
    longTerm: seq<Action>,
    capacityPlanning: seq<Action>,
    riskMitigation: seq<Action>)

  /** _generate_recommendations. */
  function GenerateRecommendations(report: LoadReport): Recommendations
  {
    var fps := report.performance.averageFps;
    var rate := ReconnectionRate(report);
    Recommendations(
      (if fps < 10.0 then [ResolveLowFps] else []) + (if rate > 0.3 then [AddressConnectionStability] else []),
      [ComprehensiveMonitoring, OptimizeStreamingParameters],
      [HorizontalScaling, PredictiveAnalytics],
      [], [])
  }

  /**
   * Immediate actions appear only for FPS below 10 or a reconnection rate
   * above 0.3, and are all high priority; there are always two short-term
   * and two long-term items, of medium and low priority.
   */
  lemma RecommendationShape(report: LoadReport)
    ensures var r := GenerateRecommendations(report);
      && (r.immediate != [] <==> report.performance.averageFps < 10.0 || ReconnectionRate(report) > 0.3)
      && (forall a :: a in r.immediate ==> PriorityOf(a) == High)
      && |r.shortTerm| == 2 && (forall a :: a in r.shortTerm ==> PriorityOf(a) == Medium)
      && |r.longTerm| == 2 && (forall a :: a in r.longTerm ==> PriorityOf(a) == Low)
      && r.capacityPlanning == [] && r.riskMitigation == []
  {
  }

  /** A critical performance or stability alert always comes with the matching immediate action. */
  lemma CriticalAlertsHaveActions(report: LoadReport)
    ensures var a := GenerateAlerts(report);
      var r := GenerateRecommendations(report);
      && (CountDimension(a.critical, Performance) > 0 ==> ResolveLowFps in r.immediate)
      && (CountDimension(a.critical, Stability) > 0 ==> AddressConnectionStability in r.immediate)
  {
    AlertTiers(report.performance.averageFps, ReconnectionRate(report), report.resources.averageCpuPercent);
  }

  // ------------------------------------------------------ audience filter

  /** The top-level values of the enhanced data; only "insights" is looked into. */
  datatype Value = Dict(entries: map<string, Value>) | Opaque(id: nat)

  datatype AudienceConfig = AudienceConfig(
    audienceType: string,
    detailLevel: string,
    includeRecommendations: bool,
    includeRawData: bool)

  /** _filter_data_for_audience, on a shallow copy of the enhanced data. */
  function FilterForAudience(data: map<string, Value>, a: AudienceConfig): map<string, Value>
  {
    var noRaw := if a.detailLevel == "low" || !a.includeRawData then data - {"raw_data"} else data;
    var filtered := if !a.includeRecommendations then noRaw - {"recommendations"} else noRaw;
    var insights := if "insights" in filtered && filtered["insights"].Dict? then filtered["insights"].entries else map[];
    if a.audienceType in insights then filtered["audience_insights" := insights[a.audienceType]] else filtered
  }

  /**
   * The filter drops raw_data for a low detail level or when raw data is
   * excluded, drops recommendations when they are excluded, adds the
   * audience's insights when there are any, and leaves every other key
   * as it was.
   */
  lemma AudienceFilter(data: map<string, Value>, a: AudienceConfig, key: string)
    ensures var r := FilterForAudience(data, a);
      && ("raw_data" in r <==> "raw_data" in data && a.detailLevel != "low" && a.includeRawData)
      && ("recommendations" in r <==> "recommendations" in data && a.includeRecommendations)
      && (key != "audience_insights" && key in r ==> key in data && r[key] == data[key])
      && (key != "audience_insights" && key != "raw_data" && key != "recommendations" ==> (key in r <==> key in data))
      && ("insights" in data && data["insights"].Dict? && a.audienceType in data["insights"].entries ==>
            r["audience_insights"] == data["insights"].entries[a.audienceType])
  {
  }
}
