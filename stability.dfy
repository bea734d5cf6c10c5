/**
 * The stability test both capacity controllers apply to one harness run
 * (test_stream_count in adaptive_load_test.py, find_max_streams in
 * simple_max_test.py): at least 90 % of the target streams reached, and a
 * reconnection rate no higher than the threshold.  The rate is
 * reconnections / achieved, or +infinity when nothing was achieved.
 */
module Stability {
  import opened Common
  import opened ReportData

  /** What a controller sees of one harness run. */
  datatype Attempt =
    | AttemptRaised(message: string)     // run_load_test raised
    | AttemptError(message: string)      // the report is {"error": ...}
    | AttemptReport(achieved: nat, reconnections: nat, averageFps: real, duration: real)

  /** The fields a controller reads from the harness result. */
  function AttemptOf(r: HarnessResult): (a: Attempt)
    ensures r.HarnessError? <==> a.AttemptError?
    ensures r.HarnessReport? ==>
      && a.AttemptReport?
      && a.achieved == r.report.testInfo.maxConcurrentAchieved
      && a.reconnections == r.report.performance.totalReconnections
  {
    match r
    case HarnessError(message) => AttemptError(message)
    case HarnessReport(report) =>
      AttemptReport(report.testInfo.maxConcurrentAchieved, report.performance.totalReconnections,
                    report.performance.averageFps, report.testInfo.durationSeconds)
  }

  /** reconnections / achieved, with None standing for float('inf'). */
  function ReconnectionRate(reconnections: nat, achieved: nat): (r: Option<real>)
    ensures r.None? <==> achieved == 0
    ensures r.Some? ==> r.value >= 0.0 && r.value * achieved as real == reconnections as real
  {
    if achieved > 0 then Some(reconnections as real / achieved as real) else None
  }

  /** `rate <= threshold` for a finite threshold: infinity is never at most it. */
  predicate RateWithin(rate: Option<real>, threshold: real)
  {
    rate.Some? && rate.value <= threshold
  }

  /** The stability predicate shared by both controllers. */
  predicate IsStable(target: int, achieved: nat, reconnections: nat, threshold: real)
  {
    achieved as real >= target as real * 0.9 && RateWithin(ReconnectionRate(reconnections, achieved), threshold)
  }

  /** A stable run achieved at least one stream and 90 % of its target. */
  lemma StableAchievedSomething(target: int, achieved: nat, reconnections: nat, threshold: real)
    ensures IsStable(target, achieved, reconnections, threshold) ==>
      achieved > 0 && 10 * achieved >= 9 * target && reconnections as real <= threshold * achieved as real
  {
    if IsStable(target, achieved, reconnections, threshold) {
      var rate := reconnections as real / achieved as real;
      assert rate * achieved as real == reconnections as real;
    }
  }

  /**
   * Stability survives reaching more streams with no more reconnections, and
   * aiming at a lower target.
   */
  lemma StableMonotone(target: int, achieved: nat, reconnections: nat,
                       target': int, achieved': nat, reconnections': nat, threshold: real)
    requires IsStable(target, achieved, reconnections, threshold)
    requires target' <= target && achieved <= achieved' && reconnections' <= reconnections
    ensures IsStable(target', achieved', reconnections', threshold)
  {
    var r := reconnections as real / achieved as real;
    var r' := reconnections' as real / achieved' as real;
    assert r' <= r by {
      assert r' * achieved' as real == reconnections' as real;
      assert r * achieved as real == reconnections as real;
      assert r * achieved' as real >= r * achieved as real;
    }
  }

  /** The stability verdict on one attempt; errors and exceptions are never stable. */
  predicate AttemptStable(target: int, a: Attempt, threshold: real)
  {
    a.AttemptReport? && IsStable(target, a.achieved, a.reconnections, threshold)
  }
}
