/**
 * find_max_streams of simple_max_test.py: start at start_max streams and
 * step down until a run is stable.  The step starts at
 * max(10, start_max // 10); after an unstable run that brings the count
 * below start_max // 4 it is halved, never below 5.  Error reports and
 * exceptions step down without adjusting the step.
 *
 * Harness runs are an input: `outcome(n)` is what the run at n streams
 * produced.  Each count is tried at most once (the count strictly
 * decreases), so a function of the count describes every possible run.
 */
module SimpleMax {
  import opened Common
  import opened Stability

  /** The loop's result: the first stable run, or {"max_stable_streams": 0, "error": ...}. */
  datatype MaxResult =
    | Found(maxStableStreams: nat, reconnectionRate: real, avgFps: real)
    | NotFound

  const MinStep: int := 5

  function Last(s: seq<int>): int
    requires s != []
  {
    s[|s| - 1]
  }

  /** max(10, start_max // 10); Python's // and Dafny's / agree for a positive divisor. */
  function InitialStep(startMax: int): (s: int)
    ensures s >= 10
  {
    if startMax / 10 > 10 then startMax / 10 else 10
  }

  /** The step after an unstable run that left `next` streams to try. */
  function AdjustedStep(step: int, next: int, startMax: int): (s: int)
    requires step >= MinStep
    ensures MinStep <= s <= step
  {
    if next < startMax / 4 then (if step / 2 > MinStep then step / 2 else MinStep) else step
  }

  /** The loop from `current` with step `step`, as a recursive specification. */
  ghost function Search(current: int, step: int, startMax: int, threshold: real, outcome: int -> Attempt): (r: MaxResult)
    requires step >= MinStep
    ensures r.Found? ==> exists count :: 0 < count <= current && AttemptStable(count, outcome(count), threshold)
                                        && r.maxStableStreams == outcome(count).achieved > 0
    decreases current
  {
    if current <= 0 then NotFound
    else
      var a := outcome(current);
      if AttemptStable(current, a, threshold) then
        StableAchievedSomething(current, a.achieved, a.reconnections, threshold);
        Found(a.achieved, a.reconnections as real / a.achieved as real, a.averageFps)
      else
        var next := current - step;
        // errors and exceptions step down without adjusting the step
        var step' := if a.AttemptReport? then AdjustedStep(step, next, startMax) else step;
        Search(next, step', startMax, threshold, outcome)
  }

  /** The counts the loop tries, up to and including the first stable one. */
  ghost function Tried(current: int, step: int, startMax: int, threshold: real, outcome: int -> Attempt): (s: seq<int>)
    requires step >= MinStep
    ensures forall k :: 0 <= k < |s| ==> 0 < s[k] <= current
    ensures forall k :: 0 <= k < |s| - 1 ==> s[k + 1] <= s[k] - MinStep
    ensures forall k :: 0 <= k < |s| - 1 ==> !AttemptStable(s[k], outcome(s[k]), threshold)
    decreases current
  {
    if current <= 0 then []
    else if AttemptStable(current, outcome(current), threshold) then [current]
    else
      var next := current - step;
      var step' := if outcome(current).AttemptReport? then AdjustedStep(step, next, startMax) else step;
      [current] + Tried(next, step', startMax, threshold, outcome)
  }

  /**
   * The loop returns at the first stable run, with that run's achieved
   * count: it finds something exactly when the last count tried was stable.
   */
  lemma {:induction false} FirstStableWins(current: int, step: int, startMax: int, threshold: real, outcome: int -> Attempt)
    requires step >= MinStep
    ensures var tried := Tried(current, step, startMax, threshold, outcome);
      var r := Search(current, step, startMax, threshold, outcome);
      && (r.Found? <==> tried != [] && AttemptStable(Last(tried), outcome(Last(tried)), threshold))
      && (r.Found? ==> r.maxStableStreams == outcome(Last(tried)).achieved)
    decreases current
  {
    if current <= 0 {
    } else if AttemptStable(current, outcome(current), threshold) {
      assert Tried(current, step, startMax, threshold, outcome) == [current];
    } else {
      var next := current - step;
      var step' := if outcome(current).AttemptReport? then AdjustedStep(step, next, startMax) else step;
      FirstStableWins(next, step', startMax, threshold, outcome);
      var rest := Tried(next, step', startMax, threshold, outcome);
      assert Search(current, step, startMax, threshold, outcome) == Search(next, step', startMax, threshold, outcome);
      assert Tried(current, step, startMax, threshold, outcome) == [current] + rest;
      if rest != [] {
        assert Last([current] + rest) == Last(rest);
      }
    }
  }

  /** When the loop finds nothing, every count it tried was unstable. */
  lemma NotFoundAllUnstable(current: int, step: int, startMax: int, threshold: real, outcome: int -> Attempt)
    requires step >= MinStep
    requires Search(current, step, startMax, threshold, outcome).NotFound?
    ensures var tried := Tried(current, step, startMax, threshold, outcome);
      forall k :: 0 <= k < |tried| ==> !AttemptStable(tried[k], outcome(tried[k]), threshold)
  {
    FirstStableWins(current, step, startMax, threshold, outcome);
  }

  /** The loop of find_max_streams. */
  method FindMaxStreams(startMax: int, threshold: real, outcome: int -> Attempt) returns (r: MaxResult)
    ensures r == Search(startMax, InitialStep(startMax), startMax, threshold, outcome)
  {
    var current := startMax;
    var step := InitialStep(startMax);
    while current > 0
      invariant step >= MinStep
      invariant Search(current, step, startMax, threshold, outcome)
             == Search(startMax, InitialStep(startMax), startMax, threshold, outcome)
      decreases current
    {
      var attempt := outcome(current);
      if !attempt.AttemptReport? {
        current := current - step;
        continue;
      }
      var achieved, reconnections := attempt.achieved, attempt.reconnections;
      var rate: Option<real> := if achieved > 0 then Some(reconnections as real / achieved as real) else None;
      var stable := achieved as real >= current as real * 0.9 && rate.Some? && rate.value <= threshold;
      if stable {
        return Found(achieved, rate.value, attempt.averageFps);
      }
      current := current - step;
      if current < startMax / 4 {
        step := if step / 2 > MinStep then step / 2 else MinStep;
      }
    }
    r := NotFound;
  }

  /** A start at or below zero tries nothing; otherwise the first try is start_max itself. */
  lemma StartsAtStartMax(startMax: int, threshold: real, outcome: int -> Attempt)
    ensures var tried := Tried(startMax, InitialStep(startMax), startMax, threshold, outcome);
      (startMax <= 0 <==> tried == []) && (startMax > 0 ==> tried[0] == startMax)
  {
  }
}
