/**
 * AdaptiveLoadTester of adaptive_load_test.py.  Each test_stream_count
 * call runs the harness once for a stream count and records the outcome;
 * the tester keeps the best achieved count among stable runs.  There is
 * no search: find_maximum_streams runs the harness once at the initial
 * maximum, and the min_streams / max_streams fields are never read.
 */
module AdaptiveLoad {
  import opened Common
  import opened ReportData
  import opened Stability
  import SC = StreamConnection
  import SH = StreamHarness

  /** The result_summary dict appended to test_results (the full report is not kept). */
  datatype ResultSummary = ResultSummary(
    streamCount: int,
    achievedStreams: nat,
    totalReconnections: nat,
    reconnectionRate: Option<real>,
    isStable: bool,
    testDuration: real,
    avgFps: real)

  /** What test_stream_count returns besides the verdict. */
  datatype IterationOutcome = IterationError(message: string) | IterationSummary(summary: ResultSummary)

  /** The summary of a run that produced a report. */
  function SummaryOf(streamCount: int, a: Attempt, threshold: real): (s: ResultSummary)
    requires a.AttemptReport?
    ensures s.isStable == AttemptStable(streamCount, a, threshold)
    ensures s.streamCount == streamCount && s.achievedStreams == a.achieved
    ensures s.reconnectionRate == ReconnectionRate(a.reconnections, a.achieved)
  {
    ResultSummary(streamCount, a.achieved, a.reconnections, ReconnectionRate(a.reconnections, a.achieved),
                  IsStable(streamCount, a.achieved, a.reconnections, threshold), a.duration, a.averageFps)
  }

  /** A recorded summary agrees with the stability predicate. */
  ghost predicate Consistent(r: ResultSummary, threshold: real)
  {
    && r.reconnectionRate == ReconnectionRate(r.totalReconnections, r.achievedStreams)
    && r.isStable == IsStable(r.streamCount, r.achievedStreams, r.totalReconnections, threshold)
  }

  /** best_stable_count as the fold of `max` over the stable results, from 0. */
  function BestCount(results: seq<ResultSummary>): nat
  {
    if results == [] then 0
    else
      var before := BestCount(results[..|results| - 1]);
      var last := results[|results| - 1];
      if last.isStable && last.achievedStreams > before then last.achievedStreams else before
  }

  /**
   * The best count is the largest achieved count of a stable result, and 0
   * exactly when no result is stable.
   */
  lemma {:induction false} BestCountIsMaxStable(results: seq<ResultSummary>, threshold: real)
    requires forall k :: 0 <= k < |results| ==> Consistent(results[k], threshold)
    ensures forall k :: 0 <= k < |results| && results[k].isStable ==> results[k].achievedStreams <= BestCount(results)
    ensures BestCount(results) == 0 <==> forall k :: 0 <= k < |results| ==> !results[k].isStable
    ensures BestCount(results) > 0 ==>
      exists k :: 0 <= k < |results| && results[k].isStable && results[k].achievedStreams == BestCount(results)
    decreases |results|
  {
    if results != [] {
      var init := results[..|results| - 1];
      var last := results[|results| - 1];
      BestCountIsMaxStable(init, threshold);
      assert forall k :: 0 <= k < |init| ==> init[k] == results[k];
      if last.isStable {
        StableAchievedSomething(last.streamCount, last.achievedStreams, last.totalReconnections, threshold);
      }
      if BestCount(init) > 0 {
        var k :| 0 <= k < |init| && init[k].isStable && init[k].achievedStreams == BestCount(init);
        assert results[k] == init[k];
      }
    }
  }

  /** No stable result before index i achieved as many streams as result i. */
  predicate NoEarlierAsGood(results: seq<ResultSummary>, i: nat)
    requires i < |results|
  {
    forall j :: 0 <= j < i && results[j].isStable ==> results[j].achievedStreams < results[i].achievedStreams
  }

  /**
   * `max(stable_results, key=achieved_streams)`: the first stable result with
   * the largest achieved count, or None when none is stable.
   */
  function BestResult(results: seq<ResultSummary>): (r: Option<ResultSummary>)
    ensures r.None? <==> forall k :: 0 <= k < |results| ==> !results[k].isStable
    ensures r.Some? ==>
      && r.value.isStable
      && (forall j :: 0 <= j < |results| && results[j].isStable ==> results[j].achievedStreams <= r.value.achievedStreams)
      && (exists i :: 0 <= i < |results| && results[i] == r.value && NoEarlierAsGood(results, i))
  {
    if results == [] then None
    else
      var rest := BestResult(results[1..]);
      assert forall k :: 1 <= k < |results| ==> results[k] == results[1..][k - 1];
      if results[0].isStable && (rest.None? || results[0].achievedStreams >= rest.value.achievedStreams) then
        Some(results[0])
      else
        assert rest.Some? ==> (exists i :: 0 <= i < |results| && results[i] == rest.value && NoEarlierAsGood(results, i))
        by {
          if rest.Some? {
            var i :| 0 <= i < |results[1..]| && results[1..][i] == rest.value && NoEarlierAsGood(results[1..], i);
            assert results[i + 1] == rest.value;
            assert NoEarlierAsGood(results, i + 1);
          }
        }
        rest
  }

  /** The stable configuration reported is the one whose count is best_stable_count. */
  lemma BestResultMatchesBestCount(results: seq<ResultSummary>, threshold: real)
    requires forall k :: 0 <= k < |results| ==> Consistent(results[k], threshold)
    ensures BestResult(results).Some? <==> BestCount(results) > 0
    ensures BestResult(results).Some? ==> BestResult(results).value.achievedStreams == BestCount(results)
  {
    BestCountIsMaxStable(results, threshold);
    if BestResult(results).Some? {
      var i :| 0 <= i < |results| && results[i] == BestResult(results).value;
      if BestCount(results) > 0 {
        var k :| 0 <= k < |results| && results[k].isStable && results[k].achievedStreams == BestCount(results);
      }
    }
  }

  function CountStable(results: seq<ResultSummary>): (n: nat)
    ensures n <= |results|
  {
    if results == [] then 0 else (if results[0].isStable then 1 else 0) + CountStable(results[1..])
  }

  datatype AdaptiveTier = AdaptiveExcellent | AdaptiveGood | AdaptiveModerate | Limited | Unable

  datatype Characteristics = Characteristics(maxStableStreams: nat, avgFpsAtStable: real, avgReconnectionRate: real)

  datatype AdaptiveRecommendation =
    | CheckConnectivity
    | ReduceInitialParameters
    | TestOffPeak
    | StayBelow(streams: int)
    | ProductionLimit(streams: int)
    | MonitorResources
    | GradualScaling

  /** The analysis dict: the summary's tier, the characteristics (when present) and the recommendations. */
  datatype AdaptiveAnalysis = AdaptiveAnalysis(
    tier: AdaptiveTier,
    characteristics: Option<Characteristics>,
    recommendations: seq<AdaptiveRecommendation>)

  function StableOnly(results: seq<ResultSummary>): (r: seq<ResultSummary>)
    ensures forall k :: 0 <= k < |r| ==> r[k].isStable
    ensures |r| == CountStable(results)
  {
    if results == [] then []
    else (if results[0].isStable then [results[0]] else []) + StableOnly(results[1..])
  }

  function UnstableCounts(results: seq<ResultSummary>): (r: seq<int>)
    ensures |r| == |results| - CountStable(results)
    ensures forall k :: 0 <= k < |r| ==> exists j :: 0 <= j < |results| && !results[j].isStable && results[j].streamCount == r[k]
    ensures forall j :: 0 <= j < |results| && !results[j].isStable ==> results[j].streamCount in r
  {
    if results == [] then []
    else
      var rest := UnstableCounts(results[1..]);
      assert forall j :: 1 <= j < |results| ==> results[j] == results[1..][j - 1];
      if results[0].isStable then rest else [results[0].streamCount] + rest
  }

  function MinInt(s: seq<int>): (m: int)
    requires s != []
    ensures forall k :: 0 <= k < |s| ==> m <= s[k]
    ensures m in s
  {
    if |s| == 1 then s[0]
    else
      var t := MinInt(s[1..]);
      assert forall k :: 1 <= k < |s| ==> s[k] == s[1..][k - 1];
      if s[0] <= t then s[0] else t
  }

  function FpsValues(results: seq<ResultSummary>): seq<real>
  {
    seq(|results|, k requires 0 <= k < |results| => results[k].avgFps)
  }

  function RateValues(results: seq<ResultSummary>): seq<real>
  {
    seq(|results|, k requires 0 <= k < |results| =>
      if results[k].reconnectionRate.Some? then results[k].reconnectionRate.value else 0.0)
  }

  /** max(1, int(best * 0.8)). */
  function ProductionLimitOf(best: nat): (n: int)
    ensures 1 <= n && (best > 0 ==> n <= best)
  {
    var t := Trunc(best as real * 0.8);
    if t > 1 then t else 1
  }

  function TierOf(best: nat): AdaptiveTier
  {
    if best == 0 then Unable
    else if best >= 50 then AdaptiveExcellent
    else if best >= 20 then AdaptiveGood
    else if best >= 10 then AdaptiveModerate
    else Limited
  }

  /** analyze_adaptive_results, given best_stable_count and test_results. */
  function AnalyzeAdaptive(best: nat, results: seq<ResultSummary>): (a: AdaptiveAnalysis)
    ensures best == 0 ==> a == AdaptiveAnalysis(Unable, None, [CheckConnectivity, ReduceInitialParameters, TestOffPeak])
    ensures best > 0 ==>
      && a.tier == TierOf(best) != Unable
      && (a.characteristics.Some? <==> CountStable(results) > 0)
      && |a.recommendations| >= 3
      && a.recommendations[|a.recommendations| - 3..]
           == [ProductionLimit(ProductionLimitOf(best)), MonitorResources, GradualScaling]
      && (CountStable(results) < |results| <==> |a.recommendations| == 4)
      && (|a.recommendations| == 4 ==>
            a.recommendations[0].StayBelow?
            && (exists j :: 0 <= j < |results| && !results[j].isStable
                            && results[j].streamCount == a.recommendations[0].streams)
            && (forall j :: 0 <= j < |results| && !results[j].isStable
                            ==> a.recommendations[0].streams <= results[j].streamCount))
  {
    if best == 0 then AdaptiveAnalysis(Unable, None, [CheckConnectivity, ReduceInitialParameters, TestOffPeak])
    else
      var stable := StableOnly(results);
      var unstable := UnstableCounts(results);
      var characteristics :=
        if stable == [] then None
        else Some(Characteristics(best, SumReal(FpsValues(stable)) / |stable| as real,
                                  SumReal(RateValues(stable)) / |stable| as real));
      var stay := if unstable == [] then [] else [StayBelow(MinInt(unstable))];
      var recs := stay + [ProductionLimit(ProductionLimitOf(best)), MonitorResources, GradualScaling];
      AdaptiveAnalysis(TierOf(best), characteristics, recs)
  }

  /** generate_final_report. */
  datatype FinalReport = FinalReport(
    totalIterations: nat,
    initialMaxTarget: int,
    testDurationPerIteration: int,
    stabilityThreshold: real,
    maximumStableStreams: nat,
    recommendedMaxStreams: nat,
    highConfidence: bool,
    stabilityVerified: bool,
    allIterations: seq<ResultSummary>,
    bestStableConfiguration: Option<ResultSummary>,
    analysis: AdaptiveAnalysis)

  class AdaptiveLoadTester {
    const initialMax: int
    const testDuration: int
    const stabilityThreshold: real

    /** Search bounds the code sets and never reads. */
    var minStreams: int
    var maxStreams: int
    var bestStableCount: nat
    var testIteration: nat
    var testResults: seq<ResultSummary>

    ghost predicate Valid()
      reads this
    {
      && (forall k :: 0 <= k < |testResults| ==> Consistent(testResults[k], stabilityThreshold))
      && bestStableCount == BestCount(testResults)
      && |testResults| <= testIteration
    }

    constructor (initialMax: int, testDuration: int, stabilityThreshold: real)
      ensures Valid()
      ensures this.initialMax == initialMax && this.testDuration == testDuration
      ensures this.stabilityThreshold == stabilityThreshold
      ensures minStreams == 1 && maxStreams == initialMax
      ensures bestStableCount == 0 && testIteration == 0 && testResults == []
    {
      this.initialMax := initialMax;
      this.testDuration := testDuration;
      this.stabilityThreshold := stabilityThreshold;
      minStreams := 1;
      maxStreams := initialMax;
      bestStableCount := 0;
      testIteration := 0;
      testResults := [];
    }

    /**
     * test_stream_count: one harness run at `streamCount` streams, whose
     * outcome is `attempt`.
     */
    method TestStreamCount(streamCount: int, attempt: Attempt) returns (stable: bool, outcome: IterationOutcome)
      requires Valid()
      modifies this`testIteration, this`testResults, this`bestStableCount
      ensures Valid()
      ensures testIteration == old(testIteration) + 1
      ensures stable == AttemptStable(streamCount, attempt, stabilityThreshold)
      ensures attempt.AttemptReport? ==>
        && outcome == IterationSummary(SummaryOf(streamCount, attempt, stabilityThreshold))
        && testResults == old(testResults) + [outcome.summary]
      ensures !attempt.AttemptReport? ==> outcome == IterationError(attempt.message) && testResults == old(testResults)
      ensures bestStableCount >= old(bestStableCount)
      ensures bestStableCount ==
        if stable && attempt.achieved > old(bestStableCount) then attempt.achieved else old(bestStableCount)
    {
      testIteration := testIteration + 1;
      match attempt {
        case AttemptRaised(message) =>
          return false, IterationError(message);
        case AttemptError(message) =>
          return false, IterationError(message);
        case AttemptReport(achieved, reconnections, fps, duration) =>
          var rate := if achieved > 0 then Some(reconnections as real / achieved as real) else None;
          stable := achieved as real >= streamCount as real * 0.9 && rate.Some? && rate.value <= stabilityThreshold;
          var summary := ResultSummary(streamCount, achieved, reconnections, rate, stable, duration, fps);
          ghost var before := testResults;
          testResults := testResults + [summary];
          assert testResults[..|testResults| - 1] == before;
          if stable {
            bestStableCount := if bestStableCount > achieved then bestStableCount else achieved;
          }
          outcome := IterationSummary(summary);
      }
    }

    /**
     * find_maximum_streams: one harness run with max_concurrent = initial_max
     * and the test duration, cameras shuffled.  An error comes back holding
     * only its message; otherwise the harness report is returned, its target
     * being initial_max.  The camera fetch, the shuffle, and the streams and
     * samples the run ends with are parameters.
     */
    method FindMaximumStreams(fetch: SH.Fetch, shuffled: seq<SC.Camera>, streams: seq<SC.StreamStats>,
                              samples: seq<SH.Sample>, startTime: real, endTime: real)
      returns (r: HarnessResult)
      requires fetch.Fetched? ==> multiset(shuffled) == multiset(SH.ActiveCameras(fetch.cameras))
      ensures var s := SH.SelectTestCameras(fetch, true, shuffled, initialMax);
        && (s.SelectionError? ==> r == HarnessError(s.message))
        && (s.Selected? ==> r == HarnessReport(SH.GenerateReport(streams, samples, initialMax, startTime, endTime)))
      ensures fetch.FetchFailed? ==> r == HarnessError(fetch.message)
      ensures r.HarnessReport? ==>
        && r.report.testInfo.maxConcurrentTarget == initialMax
        && r.report.testInfo.durationSeconds == RoundTo(endTime - startTime, 100)
    {
      var tester := new SH.LoadTester(initialMax, testDuration, true);
      var error := tester.Launch(fetch, shuffled, startTime);
      if error.Some? {
        return HarnessError(error.value);
      }
      r := HarnessReport(SH.GenerateReport(streams, samples, tester.maxConcurrent, startTime, endTime));
    }

    /** generate_final_report on the tester's state. */
    function FinalReportOf(): (f: FinalReport)
      reads this
      requires Valid()
      ensures f.maximumStableStreams == f.recommendedMaxStreams == bestStableCount
      ensures f.stabilityVerified <==> f.bestStableConfiguration.Some?
      ensures f.highConfidence <==> CountStable(testResults) >= 3
      ensures f.totalIterations == testIteration
    {
      var best := BestResult(testResults);
      FinalReport(testIteration, initialMax, testDuration, stabilityThreshold, bestStableCount, bestStableCount,
                  CountStable(testResults) >= 3, best.Some?, testResults, best,
                  AnalyzeAdaptive(bestStableCount, testResults))
    }

    /** The reported best configuration carries exactly best_stable_count streams, when there is one. */
    lemma FinalReportConsistent()
      requires Valid()
      ensures FinalReportOf().stabilityVerified <==> bestStableCount > 0
      ensures FinalReportOf().stabilityVerified ==>
        FinalReportOf().bestStableConfiguration.value.achievedStreams == bestStableCount
      ensures FinalReportOf().analysis.tier == Unable <==> !FinalReportOf().stabilityVerified
    {
      BestResultMatchesBestCount(testResults, stabilityThreshold);
    }
  }
}
