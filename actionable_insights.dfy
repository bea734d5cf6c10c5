/**
 * The decision logic of ActionableInsightsSystem (actionable_insights_system.py):
 * issue classification by majority of conditions, the recommendations each
 * issue brings and their ordering, decision-tree guidance, the priority
 * matrix and the phased roadmap, the overall-health verdict, the effort
 * estimate and the top three actions.
 *
 * The insights read the "raw_data" part of an enhanced report.  Remediation
 * step lists, ids, timestamps and the free-text fields of a recommendation
 * are left out; the fields the decisions read are kept.
 *
 * As written, the module cannot be imported (its recommendation dataclass
 * puts fields without defaults after defaulted ones), and its executive
 * summary divides by a max_concurrent_achieved that may be 0.
 * GenerateInsightsAsWritten and SummarizeAsWritten model that code;
 * everything else models the evidently intended program.
 */
module ActionableInsights {
  import opened Common
  import ReportData
  import EO = EnhancedOutput

  // ---------------------------------------------------------------- enums

  /** Priority; the Python enum's value is its rank, 1 = most pressing. */
  datatype Priority = Critical | High | Medium | LowPriority

  function PriorityValue(p: Priority): int
  {
    match p
    case Critical => 1
    case High => 2
    case Medium => 3
    case LowPriority => 4
  }

  function PriorityName(p: Priority): string
  {
    match p
    case Critical => "CRITICAL"
    case High => "HIGH"
    case Medium => "MEDIUM"
    case LowPriority => "LOW"
  }

  datatype ImpactLevel = Severe | Major | ModerateImpact | Minor

  datatype Urgency = Immediate | Urgent | Normal | LowUrgency

  function UrgencyValue(u: Urgency): int
  {
    match u
    case Immediate => 1
    case Urgent => 2
    case Normal => 3
    case LowUrgency => 4
  }

  /** An estimated effort such as "8 hours", read as its leading number and its unit. */
  datatype EffortUnit = HourUnit | DayUnit
  datatype Effort = Effort(count: nat, unit: EffortUnit)

  /** The five recommendations the system can make. */
  datatype RecommendationKind =
    | OptimizePerformance | AddressResourceUsage | ImproveConnectionStability
    | EnhanceMonitoring | CreateRunbooks

  /**
   * The fields of an ActionableRecommendation that the decisions read; the
   * title, category and target resolution time are fixed by its kind.
   */
  datatype Recommendation = Recommendation(
    kind: RecommendationKind,
    priority: Priority,
    impact: ImpactLevel,
    urgency: Urgency,
    confidence: real,
    effort: Effort)

  function Title(k: RecommendationKind): string
  {
    match k
    case OptimizePerformance => "Optimize System Performance"
    case AddressResourceUsage => "Address High Resource Utilization"
    case ImproveConnectionStability => "Improve Connection Stability"
    case EnhanceMonitoring => "Enhance Monitoring and Alerting"
    case CreateRunbooks => "Create Operational Runbooks"
  }

  function RecommendationCategory(k: RecommendationKind): string
  {
    match k
    case OptimizePerformance => "performance"
    case AddressResourceUsage => "infrastructure"
    case ImproveConnectionStability => "networking"
    case EnhanceMonitoring => "monitoring"
    case CreateRunbooks => "process"
  }

  function TargetResolution(k: RecommendationKind): string
  {
    match k
    case OptimizePerformance => "3 days"
    case AddressResourceUsage => "1 week"
    case ImproveConnectionStability => "24 hours"
    case EnhanceMonitoring => "1 week"
    case CreateRunbooks => "2 weeks"
  }

  // ------------------------------------------------------------- raw data

  /**
   * The keys of "raw_data" the insights read.  A missing key reads as 0,
   * except max_concurrent_achieved, whose default differs between readers
   * (0 or 1), so its absence is kept.  Each stream contributes its list of
   * error messages.
   */
  datatype RawData = RawData(
    averageFps: real,
    totalReconnections: nat,
    achieved: Option<nat>,
    target: int,
    cpuPercent: real,
    memoryPercent: real,
    streamErrors: seq<seq<string>>)

  /** The stream list's error messages. */
  function StreamErrors(streams: seq<ReportData.StreamEntry>): (r: seq<seq<string>>)
    ensures |r| == |streams| && forall i :: 0 <= i < |r| ==> r[i] == streams[i].errors
  {
    if streams == [] then [] else [streams[0].errors] + StreamErrors(streams[1..])
  }

  /** The raw data of a full harness report: every key is present. */
  function RawOf(report: ReportData.LoadReport): (d: RawData)
    ensures d.achieved == Some(report.testInfo.maxConcurrentAchieved)
    ensures d.target == report.testInfo.maxConcurrentTarget
    ensures |d.streamErrors| == |report.streams|
  {
    RawData(report.performance.averageFps, report.performance.totalReconnections,
            Some(report.testInfo.maxConcurrentAchieved), report.testInfo.maxConcurrentTarget,
            report.resources.averageCpuPercent, report.resources.averageMemoryPercent,
            StreamErrors(report.streams))
  }

  /** data.get("test_info", {}).get("max_concurrent_achieved", default). */
  function AchievedOr(d: RawData, default: nat): nat
  {
    if d.achieved.Some? then d.achieved.value else default
  }

  /** Every error message of every stream, in order. */
  function AllErrors(errs: seq<seq<string>>): (r: seq<string>)
    ensures |r| == TotalErrors(errs)
  {
    if errs == [] then [] else errs[0] + AllErrors(errs[1..])
  }

  /** sum(len(s.get("errors", [])) for s in individual_streams). */
  function TotalErrors(errs: seq<seq<string>>): nat
  {
    if errs == [] then 0 else |errs[0]| + TotalErrors(errs[1..])
  }

  /** The messages that mention "timeout" in any letter case. */
  function TimeoutErrors(errors: seq<string>): (n: nat)
    ensures n <= |errors|
  {
    if errors == [] then 0
    else (if Contains(Lower(errors[0]), "timeout") then 1 else 0) + TimeoutErrors(errors[1..])
  }

  // ------------------------------------------------------ classification

  /** What evaluating one classifier condition gave: a raised exception is skipped. */
  datatype Check = Holds | Fails | Raises

  function CheckOf(b: bool): (c: Check)
    ensures c.Holds? <==> b
    ensures !c.Raises?
  {
    if b then Holds else Fails
  }

  /** The number of conditions met. */
  function CountHolds(checks: seq<Check>): (n: nat)
    ensures n <= |checks|
  {
    if checks == [] then 0
    else CountHolds(checks[..|checks| - 1]) + (if checks[|checks| - 1].Holds? then 1 else 0)
  }

  /** The counting loop of _classify_issues for one classifier. */
  method CountMet(checks: seq<Check>) returns (met: nat)
    ensures met == CountHolds(checks)
  {
    met := 0;
    var i := 0;
    while i < |checks|
      invariant 0 <= i <= |checks|
      invariant met == CountHolds(checks[..i])
    {
      assert checks[..i + 1][..i] == checks[..i];
      if checks[i] == Holds {
        met := met + 1;
      }
      i := i + 1;
    }
    assert checks[..i] == checks;
  }

  /** The four classifiers, in the order the dict lists them. */
  datatype IssueType = PerformanceDegradation | HighResourceUsage | ConnectivityInstability | ErrorSurge

  const Classifiers: seq<IssueType> := [PerformanceDegradation, HighResourceUsage, ConnectivityInstability, ErrorSurge]

  function Severity(t: IssueType): ImpactLevel
  {
    match t
    case PerformanceDegradation => Major
    case HighResourceUsage => ModerateImpact
    case ConnectivityInstability => Major
    case ErrorSurge => ModerateImpact
  }

  function Category(t: IssueType): string
  {
    match t
    case PerformanceDegradation => "performance"
    case HighResourceUsage => "resources"
    case ConnectivityInstability => "connectivity"
    case ErrorSurge => "errors"
  }

  /** The classifier's conditions evaluated on the raw data. */
  function Conditions(t: IssueType, d: RawData): (checks: seq<Check>)
    ensures |checks| == (if t == PerformanceDegradation || t == HighResourceUsage then 2 else 1)
  {
    match t
    case PerformanceDegradation =>
      [CheckOf(d.averageFps < 15.0), CheckOf(AchievedOr(d, 0) as real < d.target as real * 0.8)]
    case HighResourceUsage =>
      [CheckOf(d.cpuPercent > 80.0), CheckOf(d.memoryPercent > 80.0)]
    case ConnectivityInstability =>
      var achieved := AchievedOr(d, 1);
      [CheckOf(d.totalReconnections as real / (if achieved > 1 then achieved else 1) as real > 0.2)]
    case ErrorSurge =>
      [CheckOf(TotalErrors(d.streamErrors) > 20)]
  }

  /** An entry of detected_issues. */
  datatype DetectedIssue = DetectedIssue(issueType: IssueType, severity: ImpactLevel, confidence: real)

  /** A classifier's verdict from its count of met conditions: detected at 60 % or more. */
  function Verdict(t: IssueType, met: nat, total: nat): (r: Option<DetectedIssue>)
    requires total > 0
    ensures r.Some? ==> r.value.issueType == t && r.value.severity == Severity(t)
  {
    if met as real >= total as real * 0.6 then
      Some(DetectedIssue(t, Severity(t), met as real / total as real))
    else None
  }

  /** One classifier's verdict on its evaluated conditions. */
  function Detect(t: IssueType, checks: seq<Check>): Option<DetectedIssue>
    requires |checks| > 0
  {
    Verdict(t, CountHolds(checks), |checks|)
  }

  /** met / n lies in [0.6, 1] when 0.6 * n <= met <= n. */
  lemma ShareBounds(met: real, n: real)
    requires n > 0.0 && n * 0.6 <= met <= n
    ensures 0.6 <= met / n <= 1.0 && met / n * n == met
  {
    var c := met / n;
    assert c * n == met;
  }

  /** x / m > b exactly when x > b * m, for a positive m. */
  lemma RatioAbove(x: real, m: real, b: real)
    requires m > 0.0
    ensures x / m > b <==> x > b * m
  {
    var q := x / m;
    assert q * m == x;
    if q > b {
      assert m * (q - b) > 0.0;
    } else {
      assert m * (b - q) >= 0.0;
    }
  }

  /** The 60 % threshold in integer terms. */
  lemma SixTenths(met: int, n: int)
    ensures met as real >= n as real * 0.6 <==> 10 * met >= 6 * n
  {
    assert (10 * met) as real == 10.0 * met as real;
    assert (6 * n) as real == 6.0 * n as real;
  }

  /** A classifier fires when 60 % of its conditions hold; its confidence is the share met. */
  lemma DetectThreshold(t: IssueType, met: nat, total: nat)
    requires 0 < total && met <= total
    ensures Verdict(t, met, total).Some? <==> 10 * met >= 6 * total
    ensures Verdict(t, met, total).Some? ==>
      && 0.6 <= Verdict(t, met, total).value.confidence <= 1.0
      && Verdict(t, met, total).value.confidence * total as real == met as real
  {
    SixTenths(met, total);
    if 10 * met >= 6 * total {
      ShareBounds(met as real, total as real);
    }
  }

  /** A two-condition classifier needs both; a one-condition classifier needs its one. */
  lemma SmallClassifiers(t: IssueType, checks: seq<Check>)
    requires 1 <= |checks| <= 2
    ensures Detect(t, checks).Some? <==> forall i :: 0 <= i < |checks| ==> checks[i].Holds?
  {
    DetectThreshold(t, CountHolds(checks), |checks|);
    assert checks[..1][..0] == [];
    if |checks| == 2 {
      assert CountHolds(checks) == CountHolds(checks[..1]) + (if checks[1].Holds? then 1 else 0);
    }
  }

  /** A condition that raised counts exactly like one that did not hold. */
  lemma {:induction false} RaisedCountsAsUnmet(checks: seq<Check>, i: int)
    requires 0 <= i < |checks| && checks[i].Raises?
    ensures CountHolds(checks[i := Fails]) == CountHolds(checks)
    decreases |checks|
  {
    var n := |checks| - 1;
    var s := checks[i := Fails];
    assert s[..n] == if i < n then checks[..n][i := Fails] else checks[..n];
    if i < n {
      RaisedCountsAsUnmet(checks[..n], i);
    }
  }

  /** A classifier's verdict is the same whether a failed condition raised or not. */
  lemma RaisedDetectsAsUnmet(t: IssueType, checks: seq<Check>, i: int)
    requires 0 <= i < |checks| && checks[i].Raises?
    ensures Detect(t, checks[i := Fails]) == Detect(t, checks)
  {
    RaisedCountsAsUnmet(checks, i);
  }

  /** The verdict of classifier t on the raw data. */
  function IssueFor(t: IssueType, d: RawData): Option<DetectedIssue>
  {
    Detect(t, Conditions(t, d))
  }

  predicate Detected(t: IssueType, d: RawData)
  {
    IssueFor(t, d).Some?
  }

  /** What each classifier detects, in terms of the report's numbers. */
  lemma DetectionRules(d: RawData)
    ensures Detected(PerformanceDegradation, d) <==>
      d.averageFps < 15.0 && AchievedOr(d, 0) as real < d.target as real * 0.8
    ensures Detected(HighResourceUsage, d) <==> d.cpuPercent > 80.0 && d.memoryPercent > 80.0
    ensures Detected(ConnectivityInstability, d) <==>
      var achieved := AchievedOr(d, 1);
      d.totalReconnections as real > 0.2 * (if achieved > 1 then achieved else 1) as real
    ensures Detected(ErrorSurge, d) <==> TotalErrors(d.streamErrors) > 20
  {
    var pd := Conditions(PerformanceDegradation, d);
    SmallClassifiers(PerformanceDegradation, pd);
    assert (forall i :: 0 <= i < |pd| ==> pd[i].Holds?) <==> pd[0].Holds? && pd[1].Holds?;
    var hr := Conditions(HighResourceUsage, d);
    SmallClassifiers(HighResourceUsage, hr);
    assert (forall i :: 0 <= i < |hr| ==> hr[i].Holds?) <==> hr[0].Holds? && hr[1].Holds?;
    SmallClassifiers(ConnectivityInstability, Conditions(ConnectivityInstability, d));
    SmallClassifiers(ErrorSurge, Conditions(ErrorSurge, d));
    var achieved := AchievedOr(d, 1);
    RatioAbove(d.totalReconnections as real, (if achieved > 1 then achieved else 1) as real, 0.2);
  }

  /** detected_issues for the classifiers in `types`, in their order. */
  function ClassifyAll(types: seq<IssueType>, d: RawData): (r: seq<DetectedIssue>)
    ensures |r| <= |types|
    ensures forall i :: 0 <= i < |r| ==> r[i].issueType in types && Detected(r[i].issueType, d)
  {
    if types == [] then []
    else
      var t := types[|types| - 1];
      ClassifyAll(types[..|types| - 1], d) + (match IssueFor(t, d) case Some(i) => [i] case None => [])
  }

  /** _classify_issues. */
  method ClassifyIssues(d: RawData) returns (issues: seq<DetectedIssue>)
    ensures issues == ClassifyAll(Classifiers, d)
  {
    issues := [];
    var k := 0;
    while k < |Classifiers|
      invariant 0 <= k <= |Classifiers|
      invariant issues == ClassifyAll(Classifiers[..k], d)
    {
      var t := Classifiers[k];
      var checks := Conditions(t, d);
      var met := CountMet(checks);
      assert Classifiers[..k + 1][..k] == Classifiers[..k];
      if met as real >= |checks| as real * 0.6 {
        issues := issues + [DetectedIssue(t, Severity(t), met as real / |checks| as real)];
      }
      k := k + 1;
    }
    assert Classifiers[..k] == Classifiers;
  }

  /** The list of detected issues of a report. */
  function Classify(d: RawData): seq<DetectedIssue>
  {
    ClassifyAll(Classifiers, d)
  }

  function AsList(o: Option<DetectedIssue>): seq<DetectedIssue>
  {
    match o
    case Some(i) => [i]
    case None => []
  }

  /** The four verdicts in classifier order. */
  lemma ClassifyUnfold(d: RawData)
    ensures Classify(d) == AsList(IssueFor(PerformanceDegradation, d)) + AsList(IssueFor(HighResourceUsage, d))
                         + AsList(IssueFor(ConnectivityInstability, d)) + AsList(IssueFor(ErrorSurge, d))
  {
    var c := Classifiers;
    assert c[..1][..0] == [];
    assert ClassifyAll(c[..1], d) == AsList(IssueFor(PerformanceDegradation, d));
    assert c[..2][..1] == c[..1];
    assert ClassifyAll(c[..2], d) == ClassifyAll(c[..1], d) + AsList(IssueFor(HighResourceUsage, d));
    assert c[..3][..2] == c[..2];
    assert ClassifyAll(c[..3], d) == ClassifyAll(c[..2], d) + AsList(IssueFor(ConnectivityInstability, d));
    assert c[..3] == c[..|c| - 1];
  }

  // ----------------------------------------------------- recommendations

  /** _create_recommendations_for_issue: error surges bring no recommendation. */
  function RecommendationsFor(issue: DetectedIssue): (r: seq<Recommendation>)
    ensures |r| <= 1
  {
    match issue.issueType
    case PerformanceDegradation =>
      [Recommendation(OptimizePerformance, High, issue.severity, Urgent, issue.confidence, Effort(8, HourUnit))]
    case HighResourceUsage =>
      [Recommendation(AddressResourceUsage, High, issue.severity, Normal, issue.confidence, Effort(6, HourUnit))]
    case ConnectivityInstability =>
      [Recommendation(ImproveConnectionStability, Critical, issue.severity, Immediate, issue.confidence, Effort(4, HourUnit))]
    case ErrorSurge => []
  }

  /** The two recommendations _generate_optimization_recommendations always adds. */
  const Monitoring := Recommendation(EnhanceMonitoring, Medium, ModerateImpact, Normal, 0.9, Effort(6, HourUnit))
  const Runbooks := Recommendation(CreateRunbooks, LowPriority, Minor, LowUrgency, 0.8, Effort(8, HourUnit))

  /** The recommendations of the detected issues, in issue order. */
  function IssueRecommendations(issues: seq<DetectedIssue>): seq<Recommendation>
  {
    if issues == [] then []
    else IssueRecommendations(issues[..|issues| - 1]) + RecommendationsFor(issues[|issues| - 1])
  }

  /**
   * The sort key (priority.value, urgency.value) as one number: both values
   * lie in 1..4, so comparing 10 * priority + urgency is comparing the pairs
   * lexicographically (KeyIsLexicographic).
   */
  function SortKey(r: Recommendation): int
  {
    10 * PriorityValue(r.priority) + UrgencyValue(r.urgency)
  }

  lemma KeyIsLexicographic(a: Recommendation, b: Recommendation)
    ensures SortKey(a) <= SortKey(b) <==>
      PriorityValue(a.priority) < PriorityValue(b.priority)
      || (PriorityValue(a.priority) == PriorityValue(b.priority) && UrgencyValue(a.urgency) <= UrgencyValue(b.urgency))
  {
  }

  predicate SortedByKey(s: seq<Recommendation>)
  {
    forall i, j :: 0 <= i < j < |s| ==> SortKey(s[i]) <= SortKey(s[j])
  }

  lemma ConsSorted(y: Recommendation, t: seq<Recommendation>)
    requires SortedByKey(t)
    requires t == [] || SortKey(y) <= SortKey(t[0])
    ensures SortedByKey([y] + t)
  {
    forall i, j | 0 <= i < j < |[y] + t|
      ensures SortKey(([y] + t)[i]) <= SortKey(([y] + t)[j])
    {
      if i == 0 {
        assert SortKey(t[0]) <= SortKey(t[j - 1]);
      }
    }
  }

  /** Insert x before the first element with a key not below x's, keeping equal keys in order. */
  function InsertByKey(x: Recommendation, s: seq<Recommendation>): (r: seq<Recommendation>)
    requires SortedByKey(s)
    ensures SortedByKey(r)
    ensures |r| == |s| + 1
    ensures r[0] == if s == [] || SortKey(x) <= SortKey(s[0]) then x else s[0]
  {
    if s == [] || SortKey(x) <= SortKey(s[0]) then
      ConsSorted(x, s);
      [x] + s
    else
      var t := InsertByKey(x, s[1..]);
      ConsSorted(s[0], t);
      [s[0]] + t
  }

  /** Insertion adds exactly the inserted element. */
  lemma {:induction false} InsertAddsOne(x: Recommendation, s: seq<Recommendation>)
    requires SortedByKey(s)
    ensures multiset(InsertByKey(x, s)) == multiset(s) + multiset{x}
  {
    var r := InsertByKey(x, s);
    if s == [] || SortKey(x) <= SortKey(s[0]) {
      assert r == [x] + s;
    } else {
      InsertAddsOne(x, s[1..]);
      assert s == [s[0]] + s[1..];
      assert r == [s[0]] + InsertByKey(x, s[1..]);
    }
  }

  /** Insertion adds the inserted element's weight to any tally. */
  lemma {:induction false} InsertAddsWeight(x: Recommendation, s: seq<Recommendation>, w: Recommendation -> nat)
    requires SortedByKey(s)
    ensures Tally(InsertByKey(x, s), w) == Tally(s, w) + w(x)
  {
    var r := InsertByKey(x, s);
    if s == [] || SortKey(x) <= SortKey(s[0]) {
      assert r[0] == x && r[1..] == s;
    } else {
      InsertAddsWeight(x, s[1..], w);
      assert r[0] == s[0] && r[1..] == InsertByKey(x, s[1..]);
    }
  }

  /** The sum of a weight over the recommendations. */
  function Tally(s: seq<Recommendation>, w: Recommendation -> nat): nat
  {
    if s == [] then 0 else w(s[0]) + Tally(s[1..], w)
  }

  lemma {:induction false} TallyAppend(a: seq<Recommendation>, b: seq<Recommendation>, w: Recommendation -> nat)
    ensures Tally(a + b, w) == Tally(a, w) + Tally(b, w)
  {
    if a == [] {
      assert a + b == b;
    } else {
      assert (a + b)[0] == a[0] && (a + b)[1..] == a[1..] + b;
      TallyAppend(a[1..], b, w);
    }
  }

  /** list.sort(key=lambda r: (r.priority.value, r.urgency.value)), a stable sort. */
  function SortByKey(s: seq<Recommendation>): (r: seq<Recommendation>)
    ensures SortedByKey(r) && |r| == |s|
  {
    if s == [] then [] else InsertByKey(s[0], SortByKey(s[1..]))
  }

  /** Sorting permutes: the same elements, and the same total for any weight. */
  lemma {:induction false} SortPermutes(s: seq<Recommendation>, w: Recommendation -> nat)
    ensures multiset(SortByKey(s)) == multiset(s)
    ensures Tally(SortByKey(s), w) == Tally(s, w)
  {
    if s != [] {
      var t := SortByKey(s[1..]);
      SortPermutes(s[1..], w);
      InsertAddsOne(s[0], t);
      InsertAddsWeight(s[0], t, w);
      assert s == [s[0]] + s[1..];
    }
  }

  /** Sorting a list that is already in key order leaves it as it is. */
  lemma {:induction false} SortSorted(s: seq<Recommendation>)
    requires SortedByKey(s)
    ensures SortByKey(s) == s
  {
    if s != [] {
      SortSorted(s[1..]);
    }
  }

  /** The recommendations before sorting: the issues' own, then the two general ones. */
  function Unsorted(d: RawData): seq<Recommendation>
  {
    IssueRecommendations(Classify(d)) + [Monitoring, Runbooks]
  }

  /** _generate_recommendations. */
  function GenerateRecommendations(d: RawData): (r: seq<Recommendation>)
    ensures SortedByKey(r) && |r| == |Unsorted(d)|
  {
    SortByKey(Unsorted(d))
  }

  /** The recommendation issue t brings when it is detected. */
  function RecommendationIf(t: IssueType, d: RawData): seq<Recommendation>
  {
    RecommendationsOf(IssueFor(t, d))
  }

  function RecommendationsOf(o: Option<DetectedIssue>): seq<Recommendation>
  {
    match o
    case Some(issue) => RecommendationsFor(issue)
    case None => []
  }

  lemma IssueRecommendationsSnoc(issues: seq<DetectedIssue>, o: Option<DetectedIssue>)
    ensures IssueRecommendations(issues + AsList(o)) == IssueRecommendations(issues) + RecommendationsOf(o)
  {
    if o.Some? {
      assert (issues + [o.value])[..|issues|] == issues;
    } else {
      assert issues + [] == issues;
    }
  }

  /** The issue recommendations of four optional verdicts, in order. */
  lemma IssueRecommendationsOfFour(o1: Option<DetectedIssue>, o2: Option<DetectedIssue>,
                                   o3: Option<DetectedIssue>, o4: Option<DetectedIssue>)
    requires o4.Some? ==> o4.value.issueType == ErrorSurge
    ensures IssueRecommendations(AsList(o1) + AsList(o2) + AsList(o3) + AsList(o4))
         == RecommendationsOf(o1) + RecommendationsOf(o2) + RecommendationsOf(o3)
  {
    var l1 := AsList(o1);
    var l2 := l1 + AsList(o2);
    var l3 := l2 + AsList(o3);
    IssueRecommendationsSnoc([], o1);
    assert [] + l1 == l1;
    assert IssueRecommendations(l1) == RecommendationsOf(o1);
    IssueRecommendationsSnoc(l1, o2);
    IssueRecommendationsSnoc(l2, o3);
    IssueRecommendationsSnoc(l3, o4);
    assert RecommendationsOf(o4) == [];
    assert IssueRecommendations(l3 + AsList(o4)) == IssueRecommendations(l3);
  }

  lemma UnsortedUnfold(d: RawData)
    ensures Unsorted(d) == RecommendationIf(PerformanceDegradation, d) + RecommendationIf(HighResourceUsage, d)
                         + RecommendationIf(ConnectivityInstability, d) + [Monitoring, Runbooks]
  {
    ClassifyUnfold(d);
    IssueRecommendationsOfFour(IssueFor(PerformanceDegradation, d), IssueFor(HighResourceUsage, d),
                               IssueFor(ConnectivityInstability, d), IssueFor(ErrorSurge, d));
  }

  /** The priority, impact and urgency each kind of recommendation is made with. */
  predicate Consistent(x: Recommendation)
  {
    match x.kind
    case OptimizePerformance =>
      x.priority == High && x.impact == Major && x.urgency == Urgent && x.effort == Effort(8, HourUnit)
    case AddressResourceUsage =>
      x.priority == High && x.impact == ModerateImpact && x.urgency == Normal && x.effort == Effort(6, HourUnit)
    case ImproveConnectionStability =>
      x.priority == Critical && x.impact == Major && x.urgency == Immediate && x.effort == Effort(4, HourUnit)
    case EnhanceMonitoring => x == Monitoring
    case CreateRunbooks => x == Runbooks
  }

  /** The issue whose detection brings a recommendation of kind k. */
  predicate BroughtBy(k: RecommendationKind, t: IssueType)
  {
    || (k == OptimizePerformance && t == PerformanceDegradation)
    || (k == AddressResourceUsage && t == HighResourceUsage)
    || (k == ImproveConnectionStability && t == ConnectivityInstability)
  }

  /** A detected issue other than an error surge brings exactly one recommendation, of its own kind. */
  lemma RecommendationIfFacts(t: IssueType, d: RawData)
    ensures forall x :: x in RecommendationIf(t, d) ==> Consistent(x) && Detected(t, d) && BroughtBy(x.kind, t)
    ensures |RecommendationIf(t, d)| == if Detected(t, d) && t != ErrorSurge then 1 else 0
    ensures Detected(t, d) && t == ConnectivityInstability ==>
      RecommendationIf(t, d)[0].kind == ImproveConnectionStability
  {
  }

  /** Which recommendations a report can bring, and how many. */
  lemma UnsortedMembers(d: RawData)
    ensures Monitoring in Unsorted(d) && Runbooks in Unsorted(d)
    ensures forall x :: x in Unsorted(d) ==> Consistent(x)
    ensures forall x :: x in Unsorted(d) ==>
      (x.kind == OptimizePerformance ==> Detected(PerformanceDegradation, d))
      && (x.kind == AddressResourceUsage ==> Detected(HighResourceUsage, d))
      && (x.kind == ImproveConnectionStability ==> Detected(ConnectivityInstability, d))
    ensures Detected(ConnectivityInstability, d) ==> exists x :: x in Unsorted(d) && x.kind == ImproveConnectionStability
    ensures |Unsorted(d)| == 2 + (if Detected(PerformanceDegradation, d) then 1 else 0)
                               + (if Detected(HighResourceUsage, d) then 1 else 0)
                               + (if Detected(ConnectivityInstability, d) then 1 else 0)
  {
    UnsortedUnfold(d);
    RecommendationIfFacts(PerformanceDegradation, d);
    RecommendationIfFacts(HighResourceUsage, d);
    RecommendationIfFacts(ConnectivityInstability, d);
    var u := Unsorted(d);
    var a, b, c := RecommendationIf(PerformanceDegradation, d), RecommendationIf(HighResourceUsage, d),
                   RecommendationIf(ConnectivityInstability, d);
    assert u == a + b + c + [Monitoring, Runbooks];
    forall x | x in u
      ensures Consistent(x) && (x.kind == OptimizePerformance ==> Detected(PerformanceDegradation, d))
      && (x.kind == AddressResourceUsage ==> Detected(HighResourceUsage, d))
      && (x.kind == ImproveConnectionStability ==> Detected(ConnectivityInstability, d))
    {
      assert x in a || x in b || x in c || x == Monitoring || x == Runbooks;
    }
    if Detected(ConnectivityInstability, d) {
      assert c[0] in u;
    }
  }

  /** In a key-ordered permutation of consistent recommendations that include the runbooks, they come last. */
  lemma RunbooksLast(r: seq<Recommendation>, u: seq<Recommendation>)
    requires SortedByKey(r) && multiset(r) == multiset(u)
    requires forall x :: x in u ==> Consistent(x)
    requires Runbooks in u
    ensures r != [] && r[|r| - 1] == Runbooks
  {
    assert Runbooks in multiset(r);
    var j :| 0 <= j < |r| && r[j] == Runbooks;
    var last := r[|r| - 1];
    assert last in multiset(u);
    if j < |r| - 1 {
      assert SortKey(r[j]) <= SortKey(last);
    }
    assert Consistent(last);
  }

  /** ... and a connectivity fix, when there is one, comes first; nothing else is critical. */
  lemma ConnectivityFirst(r: seq<Recommendation>, u: seq<Recommendation>)
    requires SortedByKey(r) && multiset(r) == multiset(u) && r != []
    requires forall x :: x in u ==> Consistent(x)
    ensures r[0] in u
    ensures r[0].priority == Critical ==> r[0].kind == ImproveConnectionStability
    ensures (exists x :: x in u && x.kind == ImproveConnectionStability) ==> r[0].kind == ImproveConnectionStability
  {
    assert r[0] in multiset(u);
    assert Consistent(r[0]);
    if exists x :: x in u && x.kind == ImproveConnectionStability {
      var x :| x in u && x.kind == ImproveConnectionStability;
      assert x in multiset(r);
      var k :| 0 <= k < |r| && r[k] == x;
      if k > 0 {
        assert SortKey(r[0]) <= SortKey(r[k]);
      }
    }
  }

  /**
   * The ordering _generate_recommendations promises: a connectivity problem
   * comes first, the runbooks come last, and both general recommendations
   * are always present.
   */
  lemma GeneratedOrder(d: RawData)
    ensures var r := GenerateRecommendations(d);
      && Monitoring in r && Runbooks in r
      && r[|r| - 1] == Runbooks
      && (r[0].priority == Critical <==> Detected(ConnectivityInstability, d))
      && (Detected(ConnectivityInstability, d) ==> r[0].kind == ImproveConnectionStability)
  {
    var r := GenerateRecommendations(d);
    var u := Unsorted(d);
    SortPermutes(u, x => 0);
    UnsortedMembers(d);
    RunbooksLast(r, u);
    ConnectivityFirst(r, u);
    assert Monitoring in multiset(r);
  }

  // ----------------------------------------------------------- top actions

  /** An entry of top_3_actions. */
  datatype TopAction = TopAction(title: string, priority: string, effort: Effort, timeline: string)

  function ActionsOf(recs: seq<Recommendation>): (r: seq<TopAction>)
    ensures |r| == |recs|
    ensures forall i :: 0 <= i < |r| ==>
      r[i] == TopAction(Title(recs[i].kind), PriorityName(recs[i].priority), recs[i].effort, TargetResolution(recs[i].kind))
  {
    if recs == [] then []
    else [TopAction(Title(recs[0].kind), PriorityName(recs[0].priority), recs[0].effort, TargetResolution(recs[0].kind))]
         + ActionsOf(recs[1..])
  }

  /** _get_top_actions: sort again, keep the first three. */
  function TopActions(recs: seq<Recommendation>): seq<TopAction>
  {
    ActionsOf(Prefix(SortByKey(recs), 3))
  }

  lemma CriticalName(p: Priority)
    ensures PriorityName(p) == "CRITICAL" <==> p == Critical
  {
    if p != Critical {
      assert PriorityName(p)[0] != 'C';
    }
  }

  /** The top actions of a list already in key order are its first three, in order. */
  lemma TopOfSorted(r: seq<Recommendation>)
    requires SortedByKey(r)
    ensures var top := TopActions(r);
      && |top| == (if |r| < 3 then |r| else 3)
      && forall i :: 0 <= i < |top| ==>
           top[i].title == Title(r[i].kind) && top[i].priority == PriorityName(r[i].priority)
  {
    SortSorted(r);
  }

  /**
   * The top actions of a report are the first (two or) three generated
   * recommendations, in order, and the first is critical exactly when a
   * connectivity problem was detected.
   */
  lemma TopActionsOfReport(d: RawData)
    ensures var r := GenerateRecommendations(d);
      var top := TopActions(r);
      && 2 <= |top| <= 3 && |top| == (if |r| < 3 then |r| else 3)
      && (forall i :: 0 <= i < |top| ==> top[i].title == Title(r[i].kind) && top[i].priority == PriorityName(r[i].priority))
      && (top[0].priority == "CRITICAL" <==> Detected(ConnectivityInstability, d))
  {
    var r := GenerateRecommendations(d);
    TopOfSorted(r);
    UnsortedMembers(d);
    GeneratedOrder(d);
    CriticalName(r[0].priority);
  }

  // ------------------------------------------------ matrix and roadmap

  /** The elements of recs whose key is b, in order. */
  function Bucket<B(==)>(recs: seq<Recommendation>, key: Recommendation -> B, b: B): (r: seq<Recommendation>)
    ensures |r| <= |recs|
  {
    if recs == [] then []
    else
      var last := recs[|recs| - 1];
      Bucket(recs[..|recs| - 1], key, b) + (if key(last) == b then [last] else [])
  }

  lemma {:induction false} BucketMembers<B>(recs: seq<Recommendation>, key: Recommendation -> B, b: B)
    ensures forall x :: x in Bucket(recs, key, b) <==> x in recs && key(x) == b
  {
    if recs != [] {
      var init := recs[..|recs| - 1];
      BucketMembers(init, key, b);
      assert recs == init + [recs[|recs| - 1]];
    }
  }

  /** Four buckets whose keys cover every element split a list without loss or duplication. */
  lemma FourBuckets<B>(recs: seq<Recommendation>, key: Recommendation -> B, b1: B, b2: B, b3: B, b4: B)
    requires forall x :: key(x) == b1 || key(x) == b2 || key(x) == b3 || key(x) == b4
    requires b1 != b2 && b1 != b3 && b1 != b4 && b2 != b3 && b2 != b4 && b3 != b4
    ensures multiset(Bucket(recs, key, b1)) + multiset(Bucket(recs, key, b2))
          + multiset(Bucket(recs, key, b3)) + multiset(Bucket(recs, key, b4)) == multiset(recs)
    ensures |Bucket(recs, key, b1)| + |Bucket(recs, key, b2)| + |Bucket(recs, key, b3)| + |Bucket(recs, key, b4)| == |recs|
  {
    FourBucketsMultiset(recs, key, b1, b2, b3, b4);
    assert |multiset(recs)| == |recs|;
  }

  lemma FourBucketsMultiset<B>(recs: seq<Recommendation>, key: Recommendation -> B, b1: B, b2: B, b3: B, b4: B)
    requires forall x :: key(x) == b1 || key(x) == b2 || key(x) == b3 || key(x) == b4
    requires b1 != b2 && b1 != b3 && b1 != b4 && b2 != b3 && b2 != b4 && b3 != b4
    ensures multiset(Bucket(recs, key, b1)) + multiset(Bucket(recs, key, b2))
          + multiset(Bucket(recs, key, b3)) + multiset(Bucket(recs, key, b4)) == multiset(recs)
  {
    var m := multiset(Bucket(recs, key, b1)) + multiset(Bucket(recs, key, b2))
           + multiset(Bucket(recs, key, b3)) + multiset(Bucket(recs, key, b4));
    forall x
      ensures m[x] == multiset(recs)[x]
    {
      BucketCount(recs, key, b1, x);
      BucketCount(recs, key, b2, x);
      BucketCount(recs, key, b3, x);
      BucketCount(recs, key, b4, x);
    }
    assert m == multiset(recs);
  }

  /** An element occurs in its own bucket as often as in the list, and in no other bucket. */
  lemma {:induction false} BucketCount<B>(recs: seq<Recommendation>, key: Recommendation -> B, b: B, x: Recommendation)
    ensures multiset(Bucket(recs, key, b))[x] == if key(x) == b then multiset(recs)[x] else 0
  {
    if recs != [] {
      BucketCount(recs[..|recs| - 1], key, b, x);
      BucketStep(recs, key, b);
      LastSplit(recs);
    }
  }

  /** A non-empty list is its front followed by its last element, also as a multiset. */
  lemma LastSplit<T>(s: seq<T>)
    requires s != []
    ensures multiset(s) == multiset(s[..|s| - 1]) + multiset{s[|s| - 1]}
  {
    assert s == s[..|s| - 1] + [s[|s| - 1]];
  }

  /** Bucketing one more element adds it to its own bucket only. */
  lemma BucketStep<B>(recs: seq<Recommendation>, key: Recommendation -> B, b: B)
    requires recs != []
    ensures var init, last := recs[..|recs| - 1], recs[|recs| - 1];
      multiset(Bucket(recs, key, b)) == multiset(Bucket(init, key, b)) + (if key(last) == b then multiset{last} else multiset{})
  {
  }

  /** The four cells of the priority matrix. */
  datatype Quadrant = HighImpactUrgent | HighImpactNotUrgent | LowImpactUrgent | LowImpactNotUrgent

  /** impact in [SEVERE, MAJOR] crossed with urgency in [IMMEDIATE, URGENT]. */
  function QuadrantOf(r: Recommendation): Quadrant
  {
    var impactHigh := r.impact == Severe || r.impact == Major;
    var urgencyHigh := r.urgency == Immediate || r.urgency == Urgent;
    if impactHigh && urgencyHigh then HighImpactUrgent
    else if impactHigh && !urgencyHigh then HighImpactNotUrgent
    else if !impactHigh && urgencyHigh then LowImpactUrgent
    else LowImpactNotUrgent
  }

  datatype PriorityMatrix = PriorityMatrix(
    highImpactUrgent: seq<Recommendation>,
    highImpactNotUrgent: seq<Recommendation>,
    lowImpactUrgent: seq<Recommendation>,
    lowImpactNotUrgent: seq<Recommendation>)

  /** The bucketing loop of _create_priority_matrix. */
  method CreatePriorityMatrix(recs: seq<Recommendation>) returns (m: PriorityMatrix)
    ensures m.highImpactUrgent == Bucket(recs, QuadrantOf, HighImpactUrgent)
    ensures m.highImpactNotUrgent == Bucket(recs, QuadrantOf, HighImpactNotUrgent)
    ensures m.lowImpactUrgent == Bucket(recs, QuadrantOf, LowImpactUrgent)
    ensures m.lowImpactNotUrgent == Bucket(recs, QuadrantOf, LowImpactNotUrgent)
  {
    var hu, hn, lu, ln := [], [], [], [];
    var i := 0;
    while i < |recs|
      invariant 0 <= i <= |recs|
      invariant hu == Bucket(recs[..i], QuadrantOf, HighImpactUrgent)
      invariant hn == Bucket(recs[..i], QuadrantOf, HighImpactNotUrgent)
      invariant lu == Bucket(recs[..i], QuadrantOf, LowImpactUrgent)
      invariant ln == Bucket(recs[..i], QuadrantOf, LowImpactNotUrgent)
    {
      var rec := recs[i];
      assert recs[..i + 1][..i] == recs[..i];
      var impactHigh := rec.impact == Severe || rec.impact == Major;
      var urgencyHigh := rec.urgency == Immediate || rec.urgency == Urgent;
      if impactHigh && urgencyHigh {
        hu := hu + [rec];
      } else if impactHigh && !urgencyHigh {
        hn := hn + [rec];
      } else if !impactHigh && urgencyHigh {
        lu := lu + [rec];
      } else {
        ln := ln + [rec];
      }
      i := i + 1;
    }
    assert recs[..i] == recs;
    m := PriorityMatrix(hu, hn, lu, ln);
  }

  /** Every recommendation lands in exactly one cell of the matrix. */
  lemma MatrixPartition(recs: seq<Recommendation>)
    ensures multiset(Bucket(recs, QuadrantOf, HighImpactUrgent)) + multiset(Bucket(recs, QuadrantOf, HighImpactNotUrgent))
          + multiset(Bucket(recs, QuadrantOf, LowImpactUrgent)) + multiset(Bucket(recs, QuadrantOf, LowImpactNotUrgent))
         == multiset(recs)
  {
    FourBuckets(recs, QuadrantOf, HighImpactUrgent, HighImpactNotUrgent, LowImpactUrgent, LowImpactNotUrgent);
  }

  /** Every generated recommendation is one the report's issues (or the general advice) bring. */
  lemma GeneratedMembers(d: RawData)
    ensures forall x :: x in GenerateRecommendations(d) ==> x in Unsorted(d) && Consistent(x)
    ensures Monitoring in GenerateRecommendations(d) && Runbooks in GenerateRecommendations(d)
  {
    SortPermutes(Unsorted(d), x => 0);
    UnsortedMembers(d);
    assert forall x :: x in GenerateRecommendations(d) ==> x in multiset(Unsorted(d));
    assert Monitoring in multiset(GenerateRecommendations(d));
    assert Runbooks in multiset(GenerateRecommendations(d));
  }

  /**
   * Consistent recommendations leave two cells empty: each is either major
   * and urgent (performance, connectivity) or neither.
   */
  lemma MatrixOfConsistent(r: seq<Recommendation>)
    requires forall x :: x in r ==> Consistent(x)
    ensures Bucket(r, QuadrantOf, HighImpactNotUrgent) == []
    ensures Bucket(r, QuadrantOf, LowImpactUrgent) == []
    ensures forall x :: x in Bucket(r, QuadrantOf, HighImpactUrgent) <==>
      x in r && (x.kind == OptimizePerformance || x.kind == ImproveConnectionStability)
  {
    BucketMembers(r, QuadrantOf, HighImpactNotUrgent);
    BucketMembers(r, QuadrantOf, LowImpactUrgent);
    BucketMembers(r, QuadrantOf, HighImpactUrgent);
  }

  /** For a report's recommendations, the "not urgent but high impact" and "urgent but low impact" cells stay empty. */
  lemma MatrixOfReport(d: RawData)
    ensures var r := GenerateRecommendations(d);
      && Bucket(r, QuadrantOf, HighImpactNotUrgent) == []
      && Bucket(r, QuadrantOf, LowImpactUrgent) == []
      && (forall x :: x in Bucket(r, QuadrantOf, HighImpactUrgent) <==>
            x in r && (x.kind == OptimizePerformance || x.kind == ImproveConnectionStability))
  {
    GeneratedMembers(d);
    MatrixOfConsistent(GenerateRecommendations(d));
  }

  function UrgencyOf(r: Recommendation): Urgency
  {
    r.urgency
  }

  /** The four phases of the roadmap, by urgency. */
  datatype Roadmap = Roadmap(
    immediate: seq<Recommendation>,
    shortTerm: seq<Recommendation>,
    mediumTerm: seq<Recommendation>,
    longTerm: seq<Recommendation>)

  /** The bucketing loop of _create_implementation_roadmap. */
  method CreateRoadmap(recs: seq<Recommendation>) returns (rm: Roadmap)
    ensures rm.immediate == Bucket(recs, UrgencyOf, Immediate)
    ensures rm.shortTerm == Bucket(recs, UrgencyOf, Urgent)
    ensures rm.mediumTerm == Bucket(recs, UrgencyOf, Normal)
    ensures rm.longTerm == Bucket(recs, UrgencyOf, LowUrgency)
  {
    var p1, p2, p3, p4 := [], [], [], [];
    var i := 0;
    while i < |recs|
      invariant 0 <= i <= |recs|
      invariant p1 == Bucket(recs[..i], UrgencyOf, Immediate)
      invariant p2 == Bucket(recs[..i], UrgencyOf, Urgent)
      invariant p3 == Bucket(recs[..i], UrgencyOf, Normal)
      invariant p4 == Bucket(recs[..i], UrgencyOf, LowUrgency)
    {
      var rec := recs[i];
      assert recs[..i + 1][..i] == recs[..i];
      if rec.urgency == Immediate {
        p1 := p1 + [rec];
      } else if rec.urgency == Urgent {
        p2 := p2 + [rec];
      } else if rec.urgency == Normal {
        p3 := p3 + [rec];
      } else {
        p4 := p4 + [rec];
      }
      i := i + 1;
    }
    assert recs[..i] == recs;
    rm := Roadmap(p1, p2, p3, p4);
  }

  /** The phase sizes add up to the number of recommendations, and no recommendation is lost. */
  lemma RoadmapPartition(recs: seq<Recommendation>)
    ensures multiset(Bucket(recs, UrgencyOf, Immediate)) + multiset(Bucket(recs, UrgencyOf, Urgent))
          + multiset(Bucket(recs, UrgencyOf, Normal)) + multiset(Bucket(recs, UrgencyOf, LowUrgency))
         == multiset(recs)
    ensures |Bucket(recs, UrgencyOf, Immediate)| + |Bucket(recs, UrgencyOf, Urgent)|
          + |Bucket(recs, UrgencyOf, Normal)| + |Bucket(recs, UrgencyOf, LowUrgency)| == |recs|
  {
    assert forall x :: UrgencyOf(x) == Immediate || UrgencyOf(x) == Urgent || UrgencyOf(x) == Normal || UrgencyOf(x) == LowUrgency;
    FourBuckets(recs, UrgencyOf, Immediate, Urgent, Normal, LowUrgency);
  }

  /** Consistent recommendations: phase 1 is the connectivity fix, phase 4 the runbooks. */
  lemma RoadmapOfConsistent(r: seq<Recommendation>)
    requires forall x :: x in r ==> Consistent(x)
    requires Runbooks in r && Monitoring in r
    ensures forall x :: x in Bucket(r, UrgencyOf, Immediate) <==> x in r && x.kind == ImproveConnectionStability
    ensures forall x :: x in Bucket(r, UrgencyOf, LowUrgency) <==> x == Runbooks
    ensures Monitoring in Bucket(r, UrgencyOf, Normal)
  {
    BucketMembers(r, UrgencyOf, Immediate);
    BucketMembers(r, UrgencyOf, LowUrgency);
    BucketMembers(r, UrgencyOf, Normal);
  }

  /** For a report, phase 1 holds exactly the connectivity fix and phase 4 exactly the runbooks. */
  lemma RoadmapOfReport(d: RawData)
    ensures var r := GenerateRecommendations(d);
      && (forall x :: x in Bucket(r, UrgencyOf, Immediate) <==> x in r && x.kind == ImproveConnectionStability)
      && (forall x :: x in Bucket(r, UrgencyOf, LowUrgency) <==> x == Runbooks)
      && Monitoring in Bucket(r, UrgencyOf, Normal)
  {
    GeneratedMembers(d);
    RoadmapOfConsistent(GenerateRecommendations(d));
  }

  // --------------------------------------------------------------- health

  datatype Health = HealthCritical | HealthPoor | HealthFair | HealthGood

  /** The number of detected issues of a severity. */
  function CountSeverity(issues: seq<DetectedIssue>, level: ImpactLevel): (n: nat)
    ensures n <= |issues|
  {
    if issues == [] then 0
    else CountSeverity(issues[..|issues| - 1], level) + (if issues[|issues| - 1].severity == level then 1 else 0)
  }

  /** _assess_overall_health. */
  function OverallHealth(issues: seq<DetectedIssue>): (h: Health)
    ensures h == HealthCritical <==> exists i :: 0 <= i < |issues| && issues[i].severity == Severe
  {
    CountSeverityPositive(issues, Severe);
    if CountSeverity(issues, Severe) > 0 then HealthCritical
    else if CountSeverity(issues, Major) > 2 then HealthPoor
    else if CountSeverity(issues, Major) > 0 then HealthFair
    else HealthGood
  }

  lemma {:induction false} CountSeverityPositive(issues: seq<DetectedIssue>, level: ImpactLevel)
    ensures CountSeverity(issues, level) > 0 <==> exists i :: 0 <= i < |issues| && issues[i].severity == level
  {
    if issues != [] {
      var init := issues[..|issues| - 1];
      CountSeverityPositive(init, level);
      if exists i :: 0 <= i < |init| && init[i].severity == level {
        var i :| 0 <= i < |init| && init[i].severity == level;
        assert issues[i] == init[i];
      }
      if exists i :: 0 <= i < |issues| && issues[i].severity == level {
        var i :| 0 <= i < |issues| && issues[i].severity == level;
        if i < |init| {
          assert init[i] == issues[i];
        }
      }
    }
  }

  lemma CountSeveritySnoc(issues: seq<DetectedIssue>, o: Option<DetectedIssue>, level: ImpactLevel)
    ensures CountSeverity(issues + AsList(o), level) == CountSeverity(issues, level) + Mark(o, level)
  {
    if o.Some? {
      assert (issues + [o.value])[..|issues|] == issues;
    } else {
      assert issues + [] == issues;
    }
  }

  /** 1 when the verdict is a detected issue of that severity. */
  function Mark(o: Option<DetectedIssue>, level: ImpactLevel): nat
  {
    if o.Some? && o.value.severity == level then 1 else 0
  }

  /** Severity counts of four verdicts. */
  lemma CountSeverityOfFour(o1: Option<DetectedIssue>, o2: Option<DetectedIssue>,
                            o3: Option<DetectedIssue>, o4: Option<DetectedIssue>, level: ImpactLevel)
    ensures CountSeverity(AsList(o1) + AsList(o2) + AsList(o3) + AsList(o4), level)
         == Mark(o1, level) + Mark(o2, level) + Mark(o3, level) + Mark(o4, level)
  {
    var l1 := AsList(o1);
    var l2 := l1 + AsList(o2);
    var l3 := l2 + AsList(o3);
    CountSeveritySnoc([], o1, level);
    assert [] + l1 == l1;
    assert CountSeverity(l1, level) == Mark(o1, level);
    CountSeveritySnoc(l1, o2, level);
    assert CountSeverity(l2, level) == Mark(o1, level) + Mark(o2, level);
    CountSeveritySnoc(l2, o3, level);
    assert CountSeverity(l3, level) == Mark(o1, level) + Mark(o2, level) + Mark(o3, level);
    CountSeveritySnoc(l3, o4, level);
  }

  /**
   * No classifier is severe and only two are major, so a report's health is
   * never "critical" nor "poor": it is "fair" exactly when performance
   * degradation or connection instability was detected.
   */
  lemma HealthOfReport(d: RawData)
    ensures var h := OverallHealth(Classify(d));
      && h != HealthCritical && h != HealthPoor
      && (h == HealthFair <==> Detected(PerformanceDegradation, d) || Detected(ConnectivityInstability, d))
  {
    ClassifyUnfold(d);
    var o1, o2 := IssueFor(PerformanceDegradation, d), IssueFor(HighResourceUsage, d);
    var o3, o4 := IssueFor(ConnectivityInstability, d), IssueFor(ErrorSurge, d);
    CountSeverityOfFour(o1, o2, o3, o4, Severe);
    CountSeverityOfFour(o1, o2, o3, o4, Major);
  }

  // --------------------------------------------------------------- effort

  /** int(estimated_effort.split()[0]) hours, or 8 per day. */
  function EffortHours(e: Effort): nat
  {
    if e.unit == HourUnit then e.count else 8 * e.count
  }

  function HoursOf(r: Recommendation): nat
  {
    EffortHours(r.effort)
  }

  /** The estimate _estimate_total_effort renders as "H hours" or "D days". */
  datatype EffortEstimate = InHours(hours: nat) | InDays(days: nat)

  function EffortText(e: EffortEstimate): string
  {
    match e
    case InHours(h) => NatToString(h) + " hours"
    case InDays(n) => NatToString(n) + " days"
  }

  /** Under a working day the total is given in hours, otherwise in whole days rounded down. */
  function EstimateTotalEffort(recs: seq<Recommendation>): (e: EffortEstimate)
    ensures e.InHours? <==> Tally(recs, HoursOf) < 8
    ensures e.InHours? ==> e.hours == Tally(recs, HoursOf)
    ensures e.InDays? ==> e.days >= 1 && 8 * e.days <= Tally(recs, HoursOf) < 8 * e.days + 8
  {
    var total := Tally(recs, HoursOf);
    if total < 8 then InHours(total) else InDays(total / 8)
  }

  lemma TallyOfAtMostOne(s: seq<Recommendation>, w: Recommendation -> nat)
    requires |s| <= 1
    ensures Tally(s, w) == if s == [] then 0 else w(s[0])
  {
    if s != [] {
      assert s[1..] == [];
    }
  }

  lemma TallyOfFive(a: seq<Recommendation>, b: seq<Recommendation>, c: seq<Recommendation>, w: Recommendation -> nat)
    ensures Tally(a + b + c + [Monitoring, Runbooks], w)
         == Tally(a, w) + Tally(b, w) + Tally(c, w) + w(Monitoring) + w(Runbooks)
  {
    TallyAppend(a + b + c, [Monitoring, Runbooks], w);
    TallyAppend(a + b, c, w);
    TallyAppend(a, b, w);
    assert [Monitoring, Runbooks][1..] == [Runbooks] && [Runbooks][1..] == [];
    assert Tally([Runbooks], w) == w(Runbooks);
  }

  /** The sum of a weight over a report's recommendations, issue by issue. */
  lemma TallyOfReport(d: RawData, w: Recommendation -> nat)
    ensures Tally(GenerateRecommendations(d), w)
         == Tally(RecommendationIf(PerformanceDegradation, d), w) + Tally(RecommendationIf(HighResourceUsage, d), w)
          + Tally(RecommendationIf(ConnectivityInstability, d), w) + w(Monitoring) + w(Runbooks)
  {
    SortPermutes(Unsorted(d), w);
    UnsortedUnfold(d);
    TallyOfFive(RecommendationIf(PerformanceDegradation, d), RecommendationIf(HighResourceUsage, d),
                RecommendationIf(ConnectivityInstability, d), w);
  }

  /** The weight of an issue's recommendation, when the weight depends only on what its kind fixes. */
  lemma TallyOfIssue(t: IssueType, d: RawData, w: Recommendation -> nat, k: RecommendationKind, v: nat)
    requires BroughtBy(k, t)
    requires forall x :: Consistent(x) && x.kind == k ==> w(x) == v
    ensures Tally(RecommendationIf(t, d), w) == if Detected(t, d) then v else 0
  {
    RecommendationIfFacts(t, d);
    var s := RecommendationIf(t, d);
    TallyOfAtMostOne(s, w);
    if s != [] {
      assert s[0] in s;
    }
  }

  /**
   * A report's effort is 14 hours for the two general recommendations plus
   * 8, 6 and 4 for the performance, resource and connectivity fixes, so the
   * estimate is always given in days.
   */
  lemma EffortOfReport(d: RawData)
    ensures Tally(GenerateRecommendations(d), HoursOf)
         == 14 + (if Detected(PerformanceDegradation, d) then 8 else 0)
               + (if Detected(HighResourceUsage, d) then 6 else 0)
               + (if Detected(ConnectivityInstability, d) then 4 else 0)
    ensures EstimateTotalEffort(GenerateRecommendations(d)).InDays?
  {
    TallyOfReport(d, HoursOf);
    TallyOfIssue(PerformanceDegradation, d, HoursOf, OptimizePerformance, 8);
    TallyOfIssue(HighResourceUsage, d, HoursOf, AddressResourceUsage, 6);
    TallyOfIssue(ConnectivityInstability, d, HoursOf, ImproveConnectionStability, 4);
  }

  // --------------------------------------------------- executive summary

  function CriticalWeight(r: Recommendation): nat
  {
    if r.priority == Critical then 1 else 0
  }

  function HighWeight(r: Recommendation): nat
  {
    if r.priority == High then 1 else 0
  }

  /** The parts of _generate_executive_summary computed from the report. */
  datatype ExecutiveSummary = ExecutiveSummary(
    overallHealth: Health,
    immediateAttentionRequired: bool,
    totalRecommendations: nat,
    criticalIssues: nat,
    highPriorityIssues: nat,
    estimatedTotalEffort: EffortEstimate,
    topActions: seq<TopAction>)

  function Summarize(d: RawData): ExecutiveSummary
  {
    var recs := GenerateRecommendations(d);
    var critical := Tally(recs, CriticalWeight);
    ExecutiveSummary(OverallHealth(Classify(d)), critical > 0, |recs|, critical, Tally(recs, HighWeight),
                     EstimateTotalEffort(recs), TopActions(recs))
  }

  /**
   * Immediate attention is asked for exactly when a connectivity problem was
   * detected; the high-priority count is the performance and resource issues.
   */
  lemma SummaryOfReport(d: RawData)
    ensures var s := Summarize(d);
      && (s.immediateAttentionRequired <==> Detected(ConnectivityInstability, d))
      && s.criticalIssues == (if Detected(ConnectivityInstability, d) then 1 else 0)
      && s.highPriorityIssues == (if Detected(PerformanceDegradation, d) then 1 else 0)
                               + (if Detected(HighResourceUsage, d) then 1 else 0)
      && s.totalRecommendations == 2 + s.criticalIssues + s.highPriorityIssues
      && (s.overallHealth == HealthFair || s.overallHealth == HealthGood)
      && s.estimatedTotalEffort.InDays?
  {
    TallyOfReport(d, CriticalWeight);
    TallyOfIssue(PerformanceDegradation, d, CriticalWeight, OptimizePerformance, 0);
    TallyOfIssue(HighResourceUsage, d, CriticalWeight, AddressResourceUsage, 0);
    TallyOfIssue(ConnectivityInstability, d, CriticalWeight, ImproveConnectionStability, 1);
    TallyOfReport(d, HighWeight);
    TallyOfIssue(PerformanceDegradation, d, HighWeight, OptimizePerformance, 1);
    TallyOfIssue(HighResourceUsage, d, HighWeight, AddressResourceUsage, 1);
    TallyOfIssue(ConnectivityInstability, d, HighWeight, ImproveConnectionStability, 0);
    UnsortedMembers(d);
    HealthOfReport(d);
    EffortOfReport(d);
  }

  // ------------------------------------------------------- decision trees

  /**
   * The condition strings _evaluate_condition recognises, one constructor
   * each; any other text is Unrecognised.
   */
  datatype Condition =
    | FpsBelow10            // "avg_fps < 10"
    | CpuAbove80            // "cpu_usage > 80"
    | MemoryAbove80         // "memory_usage > 80"
    | RateAbove03           // "reconnection_rate > 0.3"
    | RateAbove02           // "reconnection_rate > 0.2"
    | ErrorsAbove50         // "total_errors > 50"
    | TimeoutsAbove70       // "timeout_errors > 70%"
    | Unrecognised

  /**
   * total_reconnections / max_concurrent_achieved > bound, the divisor
   * defaulting to 1 when absent; a present 0 raises ZeroDivisionError,
   * which the evaluator turns into False.
   */
  predicate RateExceeds(d: RawData, bound: real)
  {
    match d.achieved
    case None => d.totalReconnections as real > bound
    case Some(a) => a > 0 && d.totalReconnections as real / a as real > bound
  }

  /** _evaluate_condition. */
  function EvaluateCondition(c: Condition, d: RawData): (r: bool)
    ensures c.Unrecognised? ==> !r
    ensures (c.RateAbove03? || c.RateAbove02?) && d.achieved == Some(0) ==> !r
    ensures c.TimeoutsAbove70? && r ==>
      var all := AllErrors(d.streamErrors);
      |all| >= 1 && 10 * TimeoutErrors(all) > 7 * |all|
  {
    match c
    case FpsBelow10 => d.averageFps < 10.0
    case CpuAbove80 => d.cpuPercent > 80.0
    case MemoryAbove80 => d.memoryPercent > 80.0
    case RateAbove03 => RateExceeds(d, 0.3)
    case RateAbove02 => RateExceeds(d, 0.2)
    case ErrorsAbove50 => TotalErrors(d.streamErrors) > 50
    case TimeoutsAbove70 =>
      var all := AllErrors(d.streamErrors);
      var divisor := if |all| > 1 then |all| else 1;
      TimeoutShare(TimeoutErrors(all), divisor);
      TimeoutErrors(all) as real / divisor as real > 0.7
    case Unrecognised => false
  }

  /** timeouts / divisor > 0.7 in integer terms. */
  lemma TimeoutShare(timeouts: nat, divisor: nat)
    requires divisor >= 1
    ensures timeouts as real / divisor as real > 0.7 <==> 10 * timeouts > 7 * divisor
  {
    RatioAbove(timeouts as real, divisor as real, 0.7);
    assert (10 * timeouts) as real == 10.0 * timeouts as real;
    assert (7 * divisor) as real == 7.0 * divisor as real;
  }

  /** A DecisionNode, or a plain string leaf naming the action. */
  datatype DecisionTree =
    | Leaf(action: string)
    | ActionNode(question: string, action: string)
    | Branch(condition: Condition, question: string, yes: DecisionTree, no: DecisionTree)

  /** The dict _traverse_decision_tree returns. */
  datatype Guidance = Guidance(action: string, path: seq<string>, confidence: real)

  /** A path entry: the question with its answer. */
  function Answer(question: string, yes: bool): string
  {
    question + (if yes then " \U{2192} YES" else " \U{2192} NO")
  }

  /** The branch nodes the walk visits, in order. */
  function Route(t: DecisionTree, d: RawData): (r: seq<DecisionTree>)
    ensures forall i :: 0 <= i < |r| ==> r[i].Branch?
  {
    match t
    case Branch(c, _, yes, no) => [t] + Route(if EvaluateCondition(c, d) then yes else no, d)
    case _ => []
  }

  /** The node the walk stops at. */
  function Destination(t: DecisionTree, d: RawData): (e: DecisionTree)
    ensures !e.Branch?
  {
    match t
    case Branch(c, _, yes, no) => Destination(if EvaluateCondition(c, d) then yes else no, d)
    case _ => t
  }

  /**
   * _traverse_decision_tree: the path has one answered question per branch
   * visited (and the action node's question), the action is the
   * destination's, with confidence 0.9 at a leaf and 0.8 at an action node.
   */
  function Traverse(t: DecisionTree, d: RawData): (g: Guidance)
    ensures g.action == Destination(t, d).action
    ensures g.confidence == if Destination(t, d).ActionNode? then 0.8 else 0.9
    ensures var route := Route(t, d);
      && |g.path| == |route| + (if Destination(t, d).ActionNode? then 1 else 0)
      && (forall i :: 0 <= i < |route| ==>
            g.path[i] == Answer(route[i].question, EvaluateCondition(route[i].condition, d)))
      && (Destination(t, d).ActionNode? ==> g.path[|route|] == Destination(t, d).question)
  {
    match t
    case Leaf(action) => Guidance(action, [], 0.9)
    case ActionNode(question, action) => Guidance(action, [question], 0.8)
    case Branch(c, question, yes, no) =>
      var answer := EvaluateCondition(c, d);
      var sub := Traverse(if answer then yes else no, d);
      Guidance(sub.action, [Answer(question, answer)] + sub.path, sub.confidence)
  }

  /** The "performance" tree. */
  const PerformanceTree: DecisionTree :=
    Branch(FpsBelow10, "Is the average FPS below 10?",
      Branch(CpuAbove80, "Is CPU usage above 80%?",
        Branch(MemoryAbove80, "Is memory usage also above 80%?", Leaf("resource_scaling"), Leaf("cpu_optimization")),
        Branch(RateAbove03, "Is the reconnection rate above 30%?", Leaf("network_connectivity"), Leaf("application_optimization"))),
      Branch(RateAbove02, "Is the reconnection rate above 20%?", Leaf("stability_improvement"), Leaf("minor_optimization")))

  /** The "connectivity" tree. */
  const ConnectivityTree: DecisionTree :=
    Branch(ErrorsAbove50, "Are there more than 50 total errors?",
      Branch(TimeoutsAbove70, "Are more than 70% of errors timeout-related?",
        Leaf("network_optimization"), Leaf("server_investigation")),
      Leaf("minor_connectivity_tuning"))

  /** The guidance of the performance tree, in terms of the report's numbers. */
  lemma PerformanceGuidance(d: RawData)
    ensures var g := Traverse(PerformanceTree, d);
      && g.confidence == 0.9
      && |g.path| == (if d.averageFps < 10.0 then 3 else 2)
      && (d.averageFps < 10.0 && d.cpuPercent > 80.0 && d.memoryPercent > 80.0 ==> g.action == "resource_scaling")
      && (d.averageFps < 10.0 && d.cpuPercent > 80.0 && d.memoryPercent <= 80.0 ==> g.action == "cpu_optimization")
      && (d.averageFps < 10.0 && d.cpuPercent <= 80.0 && RateExceeds(d, 0.3) ==> g.action == "network_connectivity")
      && (d.averageFps < 10.0 && d.cpuPercent <= 80.0 && !RateExceeds(d, 0.3) ==> g.action == "application_optimization")
      && (d.averageFps >= 10.0 && RateExceeds(d, 0.2) ==> g.action == "stability_improvement")
      && (d.averageFps >= 10.0 && !RateExceeds(d, 0.2) ==> g.action == "minor_optimization")
  {
    var low := PerformanceTree.yes;
    if d.averageFps < 10.0 {
      var sub := if d.cpuPercent > 80.0 then low.yes else low.no;
      assert Traverse(low, d).path == [Answer(low.question, d.cpuPercent > 80.0)] + Traverse(sub, d).path;
      assert |Traverse(sub, d).path| == 1;
    }
  }

  /** The guidance of the connectivity tree. */
  lemma ConnectivityGuidance(d: RawData)
    ensures var g := Traverse(ConnectivityTree, d);
      var all := AllErrors(d.streamErrors);
      && g.confidence == 0.9
      && |g.path| == (if TotalErrors(d.streamErrors) > 50 then 2 else 1)
      && (TotalErrors(d.streamErrors) <= 50 ==> g.action == "minor_connectivity_tuning")
      && (TotalErrors(d.streamErrors) > 50 && 10 * TimeoutErrors(all) > 7 * |all| ==> g.action == "network_optimization")
      && (TotalErrors(d.streamErrors) > 50 && 10 * TimeoutErrors(all) <= 7 * |all| ==> g.action == "server_investigation")
  {
    var all := AllErrors(d.streamErrors);
    TimeoutShare(TimeoutErrors(all), if |all| > 1 then |all| else 1);
  }

  /** _generate_decision_guidance: both trees walked on the report's raw data. */
  datatype DecisionGuidance = DecisionGuidance(performance: Guidance, connectivity: Guidance)

  function DecisionGuidanceOf(d: RawData): DecisionGuidance
  {
    DecisionGuidance(Traverse(PerformanceTree, d), Traverse(ConnectivityTree, d))
  }

  // ----------------------------------------- generate_actionable_insights

  /** The metrics _extract_current_metrics reads from "raw_data". */
  datatype CurrentMetrics = CurrentMetrics(avgFps: real, cpuUsage: real, memoryUsage: real, reconnectionRate: real)

  /**
   * As written: the reconnection rate divides by max_concurrent_achieved,
   * which defaults to 1 only when the key is absent, so a present 0 raises
   * ZeroDivisionError.
   */
  function CurrentMetricsAsWritten(d: RawData): (r: EO.Outcome<CurrentMetrics>)
    ensures r.Raised? <==> d.achieved == Some(0)
    ensures r.Done? ==> r.value == CurrentMetricsOf(d)
  {
    var achieved := AchievedOr(d, 1);
    if achieved == 0 then EO.Raised(EO.DivisionByZero)
    else EO.Done(CurrentMetrics(d.averageFps, d.cpuPercent, d.memoryPercent,
                                d.totalReconnections as real / achieved as real))
  }

  /**
   * As evidently intended: the divisor is max(1, achieved), as the
   * connectivity classifier has it, so the rate exceeds 0.2 exactly when
   * that classifier detects an instability.
   */
  function CurrentMetricsOf(d: RawData): (m: CurrentMetrics)
    ensures m.reconnectionRate >= 0.0
    ensures var achieved := AchievedOr(d, 1);
      m.reconnectionRate * (if achieved > 1 then achieved else 1) as real == d.totalReconnections as real
    ensures m.reconnectionRate > 0.2 <==> Detected(ConnectivityInstability, d)
  {
    var achieved := AchievedOr(d, 1);
    var divisor := if achieved > 1 then achieved else 1;
    DetectionRules(d);
    RatioAbove(d.totalReconnections as real, divisor as real, 0.2);
    CurrentMetrics(d.averageFps, d.cpuPercent, d.memoryPercent, d.totalReconnections as real / divisor as real)
  }

  /**
   * As written: the executive summary asks _estimate_improvement_potential
   * for the current metrics, whose exception escapes the summary.
   */
  function SummarizeAsWritten(d: RawData): (r: EO.Outcome<ExecutiveSummary>)
    ensures r.Raised? <==> d.achieved == Some(0)
    ensures r.Done? ==> r.value == Summarize(d)
  {
    match CurrentMetricsAsWritten(d)
    case Raised(e) => EO.Raised(e)
    case Done(_) => EO.Done(Summarize(d))
  }

  /**
   * A harness report in which no stream ever connected makes the as-written
   * summary raise; every other report gets the intended summary.
   */
  lemma SummaryAsWrittenDiffers(report: ReportData.LoadReport)
    ensures SummarizeAsWritten(RawOf(report)).Raised? <==> report.testInfo.maxConcurrentAchieved == 0
    ensures report.testInfo.maxConcurrentAchieved > 0 ==>
      SummarizeAsWritten(RawOf(report)) == EO.Done(Summarize(RawOf(report)))
  {
  }

  /** The parts of generate_actionable_insights' result that carry decisions. */
  datatype Insights = Insights(
    summary: ExecutiveSummary,
    recommendations: seq<Recommendation>,
    decisionTrees: DecisionGuidance,
    priorityMatrix: PriorityMatrix,
    roadmap: Roadmap)

  /** The matrix CreatePriorityMatrix builds. */
  function MatrixOf(recs: seq<Recommendation>): PriorityMatrix
  {
    PriorityMatrix(Bucket(recs, QuadrantOf, HighImpactUrgent), Bucket(recs, QuadrantOf, HighImpactNotUrgent),
                   Bucket(recs, QuadrantOf, LowImpactUrgent), Bucket(recs, QuadrantOf, LowImpactNotUrgent))
  }

  /** The roadmap CreateRoadmap builds. */
  function RoadmapOf(recs: seq<Recommendation>): Roadmap
  {
    Roadmap(Bucket(recs, UrgencyOf, Immediate), Bucket(recs, UrgencyOf, Urgent),
            Bucket(recs, UrgencyOf, Normal), Bucket(recs, UrgencyOf, LowUrgency))
  }

  const NonDefaultAfterDefault: string := "non-default argument 'target_resolution_time' follows default argument"

  /**
   * As written: ActionableRecommendation declares target_resolution_time and
   * risk_of_inaction without defaults after fields with defaults, so the
   * dataclass decorator raises TypeError while the module is imported,
   * before any insight can be generated.
   */
  function GenerateInsightsAsWritten(d: RawData): (r: EO.Outcome<Insights>)
    ensures r.Raised? && r.error == NonDefaultAfterDefault
  {
    EO.Raised(NonDefaultAfterDefault)
  }

  /** No report gets insights from the module as written. */
  lemma AsWrittenNeverInsights(d: RawData)
    ensures !GenerateInsightsAsWritten(d).Done?
    ensures GenerateInsightsAsWritten(d) != EO.Done(GenerateInsights(d))
  {
  }

  /**
   * As evidently intended (the two fields given defaults, the metrics
   * guarded): the summary counts the recommendations, the matrix and the
   * roadmap each partition them, and the immediate phase is non-empty
   * exactly when the summary asks for immediate attention.
   */
  function GenerateInsights(d: RawData): (r: Insights)
    ensures r.summary == Summarize(d) && r.recommendations == GenerateRecommendations(d)
    ensures InsightsSound(r)
  {
    var recs := GenerateRecommendations(d);
    InsightsFacts(d);
    Insights(Summarize(d), recs, DecisionGuidanceOf(d), MatrixOf(recs), RoadmapOf(recs))
  }

  /** How the parts of the insights agree with each other. */
  predicate InsightsSound(r: Insights)
  {
    && r.summary.totalRecommendations == |r.recommendations|
    && multiset(r.priorityMatrix.highImpactUrgent) + multiset(r.priorityMatrix.highImpactNotUrgent)
       + multiset(r.priorityMatrix.lowImpactUrgent) + multiset(r.priorityMatrix.lowImpactNotUrgent)
       == multiset(r.recommendations)
    && r.priorityMatrix.highImpactNotUrgent == [] && r.priorityMatrix.lowImpactUrgent == []
    && multiset(r.roadmap.immediate) + multiset(r.roadmap.shortTerm)
       + multiset(r.roadmap.mediumTerm) + multiset(r.roadmap.longTerm)
       == multiset(r.recommendations)
    && (r.roadmap.immediate != [] <==> r.summary.immediateAttentionRequired)
  }

  /** The facts GenerateInsights states, from the matrix, roadmap and summary lemmas. */
  lemma InsightsFacts(d: RawData)
    ensures var recs := GenerateRecommendations(d);
      InsightsSound(Insights(Summarize(d), recs, DecisionGuidanceOf(d), MatrixOf(recs), RoadmapOf(recs)))
  {
    var recs := GenerateRecommendations(d);
    SummaryCounts(d);
    MatrixPartition(recs);
    MatrixOfReport(d);
    RoadmapPartition(recs);
    ImmediateIffAttention(d);
  }

  /** The summary counts every generated recommendation. */
  lemma SummaryCounts(d: RawData)
    ensures Summarize(d).totalRecommendations == |GenerateRecommendations(d)|
  {
  }

  /** The immediate phase is non-empty exactly when the summary asks for immediate attention. */
  lemma ImmediateIffAttention(d: RawData)
    ensures Bucket(GenerateRecommendations(d), UrgencyOf, Immediate) != [] <==> Summarize(d).immediateAttentionRequired
  {
    SummaryOfReport(d);
    ImmediateIffDetected(d);
  }

  /** The immediate phase is non-empty exactly when a connectivity problem is detected. */
  lemma ImmediateIffDetected(d: RawData)
    ensures Bucket(GenerateRecommendations(d), UrgencyOf, Immediate) != [] <==> Detected(ConnectivityInstability, d)
  {
    var recs := GenerateRecommendations(d);
    var b := Bucket(recs, UrgencyOf, Immediate);
    RoadmapOfReport(d);
    forall x | x in b
      ensures Detected(ConnectivityInstability, d)
    {
      GeneratedMembers(d);
      UnsortedMembers(d);
    }
    if b != [] {
      assert b[0] in b;
    }
    if Detected(ConnectivityInstability, d) {
      GeneratedOrder(d);
      assert recs[0] in b;
    }
  }
}
