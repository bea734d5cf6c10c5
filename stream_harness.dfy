/**
 * CameraStreamLoadTester of camera_stream_load_test.py: camera selection,
 * the shared state the stream coroutines and the resource monitor update,
 * the report and its analysis.
 *
 * asyncio runs every coroutine on one thread and switches only at awaits,
 * so a run of the tester is a sequence of atomic steps: a coroutine
 * beginning (BeginNext), a coroutine resuming on an event (Deliver), a
 * monitor sample (SampleResources) or the stop flag being raised
 * (RequestStop).  Any interleaving of these steps keeps Valid().
 */
module StreamHarness {
  import opened Common
  import opened ReportData
  import opened StreamConnection
  import FS = FrameScanner

  // ---------------------------------------------------------------- selection

  /** get_active_cameras keeps cameras whose status is 1 and whose fr_url is non-empty. */
  predicate IsActive(c: Camera)
  {
    c.status == 1 && c.frUrl != ""
  }

  function ActiveCameras(cameras: seq<Camera>): (r: seq<Camera>)
    ensures |r| <= |cameras|
    ensures forall c :: c in r <==> c in cameras && IsActive(c)
    ensures multiset(r) <= multiset(cameras)
  {
    if cameras == [] then []
    else
      var tail := ActiveCameras(cameras[1..]);
      assert cameras == [cameras[0]] + cameras[1..];
      if IsActive(cameras[0]) then [cameras[0]] + tail else tail
  }

  /** The inventory request either fails with a message or returns the camera list. */
  datatype Fetch = FetchFailed(message: string) | Fetched(cameras: seq<Camera>)

  /** What run_load_test does before starting any task: an error, or the cameras to test. */
  datatype Selection = SelectionError(message: string) | Selected(cameras: seq<Camera>)

  /**
   * Camera selection in run_load_test: the active cameras, in `shuffled`
   * order when shuffling is on (any permutation random.shuffle may
   * produce), cut to the first max_concurrent.
   */
  function SelectTestCameras(fetch: Fetch, shuffle: bool, shuffled: seq<Camera>, maxConcurrent: int): (r: Selection)
    requires fetch.Fetched? && shuffle ==> multiset(shuffled) == multiset(ActiveCameras(fetch.cameras))
    ensures fetch.FetchFailed? ==> r == SelectionError(fetch.message)
    ensures fetch.Fetched? && ActiveCameras(fetch.cameras) == [] ==> r == SelectionError("No active cameras found")
    ensures r.Selected? ==>
      && fetch.Fetched?
      && multiset(r.cameras) <= multiset(ActiveCameras(fetch.cameras))
      && (forall c :: c in r.cameras ==> c in fetch.cameras && IsActive(c))
      && (maxConcurrent >= 0 ==> |r.cameras| <= maxConcurrent)
      && (0 <= maxConcurrent <= |ActiveCameras(fetch.cameras)| ==> |r.cameras| == maxConcurrent)
  {
    match fetch
    case FetchFailed(message) => SelectionError(message)
    case Fetched(cameras) =>
      var active := ActiveCameras(cameras);
      if active == [] then SelectionError("No active cameras found")
      else
        var ordered := if shuffle then shuffled else active;
        var chosen := Prefix(ordered, maxConcurrent);
        assert ordered == chosen + ordered[|chosen|..];
        assert multiset(chosen) <= multiset(ordered);
        assert forall c :: c in chosen ==> c in multiset(active);
        Selected(chosen)
  }

  // ----------------------------------------------------------- monitor samples

  /** One system_stats entry (memory_used_gb and the network counters are not modelled). */
  datatype Sample = Sample(
    timestamp: real,
    cpuPercent: real,
    memoryPercent: real,
    activeStreams: nat,
    totalFrames: nat,
    totalBytes: nat)

  /** Largest active_streams over the samples, 0 when there are none. */
  function PeakActive(samples: seq<Sample>): (m: nat)
    ensures forall k :: 0 <= k < |samples| ==> samples[k].activeStreams <= m
    ensures samples != [] ==> exists k :: 0 <= k < |samples| && samples[k].activeStreams == m
    ensures samples == [] ==> m == 0
  {
    if samples == [] then 0
    else
      var t := PeakActive(samples[1..]);
      assert forall k :: 1 <= k < |samples| ==> samples[k] == samples[1..][k - 1];
      if samples[0].activeStreams >= t then samples[0].activeStreams else t
  }

  lemma PeakActiveAppend(samples: seq<Sample>, s: Sample)
    ensures PeakActive(samples + [s]) ==
      if s.activeStreams >= PeakActive(samples) then s.activeStreams else PeakActive(samples)
  {
    var all := samples + [s];
    var m := PeakActive(all);
    assert all[|samples|] == s;
    if samples != [] {
      var k :| 0 <= k < |samples| && samples[k].activeStreams == PeakActive(samples);
      assert all[k] == samples[k];
    }
    var j :| 0 <= j < |all| && all[j].activeStreams == m;
    if j < |samples| {
      assert all[j] == samples[j];
    }
  }

  // -------------------------------------------------------- per-stream folds

  function Reconnections(ts: seq<Coroutine>): seq<nat>
  {
    seq(|ts|, i requires 0 <= i < |ts| => ts[i].stats.reconnections)
  }

  function ErrorCounts(ts: seq<Coroutine>): seq<nat>
  {
    seq(|ts|, i requires 0 <= i < |ts| => |ts[i].stats.errors|)
  }

  /** How many of the streams are "connected" (the monitor's active_count). */
  function CountConnected(streams: seq<StreamStats>): (n: nat)
    ensures n <= |streams|
  {
    if streams == [] then 0
    else (if streams[0].status == Connected then 1 else 0) + CountConnected(streams[1..])
  }

  function SumFrames(streams: seq<StreamStats>): nat
  {
    if streams == [] then 0 else streams[0].totalFrames + SumFrames(streams[1..])
  }

  function SumBytes(streams: seq<StreamStats>): nat
  {
    if streams == [] then 0 else streams[0].totalBytes + SumBytes(streams[1..])
  }

  // ------------------------------------------------------------------ tester

  /** Every begun coroutine keeps its invariant and belongs to the camera it was created for. */
  ghost predicate TasksOk(selected: seq<Camera>, tasks: seq<Coroutine>)
  {
    && |tasks| <= |selected|
    && forall j :: 0 <= j < |tasks| ==> CoroutineOk(tasks[j]) && tasks[j].stats.cameraId == selected[j].id
  }

  /** The global counters are the sums of the per-stream ones. */
  ghost predicate CountersOk(tasks: seq<Coroutine>, totalReconnections: nat, totalErrors: nat)
  {
    && totalReconnections == SumNat(Reconnections(tasks))
    && totalErrors == SumNat(ErrorCounts(tasks))
  }

  /**
   * active_streams maps each key to a begun coroutine of that camera, and
   * `order` lists its keys once each, in insertion order.
   */
  ghost predicate IndexOk(index: map<int, nat>, order: seq<int>, tasks: seq<Coroutine>)
  {
    && (forall id :: id in index ==> index[id] < |tasks| && tasks[index[id]].stats.cameraId == id)
    && (forall k :: 0 <= k < |order| ==> order[k] in index)
    && (forall id :: id in index ==> id in order)
    && (forall i, j :: 0 <= i < j < |order| ==> order[i] != order[j])
    && |order| <= |tasks|
  }

  /** The StreamStats values the dict holds, in key order. */
  function StatsOf(order: seq<int>, index: map<int, nat>, tasks: seq<Coroutine>): (s: seq<StreamStats>)
    requires forall k :: 0 <= k < |order| ==> order[k] in index && index[order[k]] < |tasks|
    ensures |s| == |order|
    ensures forall k :: 0 <= k < |order| ==> s[k] == tasks[index[order[k]]].stats
  {
    if order == [] then [] else [tasks[index[order[0]]].stats] + StatsOf(order[1..], index, tasks)
  }

  /** A coroutine that begins keeps the tasks, index and counters consistent. */
  lemma BeginKeepsTasks(selected: seq<Camera>, tasks: seq<Coroutine>, c: Coroutine)
    requires TasksOk(selected, tasks) && |tasks| < |selected|
    requires CoroutineOk(c) && c.stats.cameraId == selected[|tasks|].id
    ensures TasksOk(selected, tasks + [c])
  {
    assert forall i :: 0 <= i < |tasks| ==> (tasks + [c])[i] == tasks[i];
  }

  lemma BeginKeepsIndex(index: map<int, nat>, order: seq<int>, tasks: seq<Coroutine>, c: Coroutine)
    requires IndexOk(index, order, tasks)
    ensures var id := c.stats.cameraId;
      IndexOk(index[id := |tasks|], if id in index then order else order + [id], tasks + [c])
  {
    var id := c.stats.cameraId;
    var order' := if id in index then order else order + [id];
    assert forall x :: x in order' <==> x in order || x == id;
    assert forall k :: 0 <= k < |order| ==> order'[k] == order[k];
    assert forall i :: 0 <= i < |tasks| ==> (tasks + [c])[i] == tasks[i];
  }

  lemma BeginKeepsCounters(tasks: seq<Coroutine>, c: Coroutine, totalReconnections: nat, totalErrors: nat)
    requires CountersOk(tasks, totalReconnections, totalErrors)
    requires c.stats.reconnections == 0 && c.stats.errors == []
    ensures CountersOk(tasks + [c], totalReconnections, totalErrors)
  {
    assert Reconnections(tasks + [c]) == Reconnections(tasks) + [0];
    assert ErrorCounts(tasks + [c]) == ErrorCounts(tasks) + [0];
    SumNatAppend(Reconnections(tasks), [0]);
    SumNatAppend(ErrorCounts(tasks), [0]);
  }

  /** The begun coroutines, active_streams and the global counters agree. */
  ghost predicate StreamsOk(selected: seq<Camera>, tasks: seq<Coroutine>, index: map<int, nat>, order: seq<int>,
                            totalReconnections: nat, totalErrors: nat)
  {
    && TasksOk(selected, tasks)
    && CountersOk(tasks, totalReconnections, totalErrors)
    && IndexOk(index, order, tasks)
  }

  /** Beginning the next coroutine keeps the streams consistent. */
  lemma BeginKeepsStreams(selected: seq<Camera>, tasks: seq<Coroutine>, index: map<int, nat>, order: seq<int>,
                          totalReconnections: nat, totalErrors: nat, c: Coroutine)
    requires StreamsOk(selected, tasks, index, order, totalReconnections, totalErrors) && |tasks| < |selected|
    requires CoroutineOk(c) && c.stats.cameraId == selected[|tasks|].id
    requires c.stats.reconnections == 0 && c.stats.errors == []
    ensures var id := c.stats.cameraId;
      StreamsOk(selected, tasks + [c], index[id := |tasks|], if id in index then order else order + [id],
                totalReconnections, totalErrors)
  {
    BeginKeepsTasks(selected, tasks, c);
    BeginKeepsIndex(index, order, tasks, c);
    BeginKeepsCounters(tasks, c, totalReconnections, totalErrors);
  }

  /** One more begun coroutine leaves every sample within bounds. */
  lemma SamplesGrow(samples: seq<Sample>, peak: nat, begun: nat)
    requires SamplesOk(samples, peak, begun)
    ensures SamplesOk(samples, peak, begun + 1)
  {
  }

  /** A resumed coroutine keeps its invariant and its camera, so the tasks and index stay consistent. */
  lemma ResumeKeepsTasks(selected: seq<Camera>, index: map<int, nat>, order: seq<int>, tasks: seq<Coroutine>, j: nat, n: Coroutine)
    requires TasksOk(selected, tasks) && IndexOk(index, order, tasks) && j < |tasks|
    requires CoroutineOk(n) && n.stats.cameraId == tasks[j].stats.cameraId
    ensures TasksOk(selected, tasks[j := n]) && IndexOk(index, order, tasks[j := n])
  {
  }

  /** Counting a resumption's errors and reconnections keeps the global counters the per-stream sums. */
  lemma ResumeKeepsCounters(tasks: seq<Coroutine>, j: nat, n: Coroutine, totalReconnections: nat, totalErrors: nat, dr: nat, de: nat)
    requires CountersOk(tasks, totalReconnections, totalErrors) && j < |tasks|
    requires n.stats.reconnections == tasks[j].stats.reconnections + dr
    requires |n.stats.errors| == |tasks[j].stats.errors| + de
    ensures CountersOk(tasks[j := n], totalReconnections + dr, totalErrors + de)
  {
    assert Reconnections(tasks[j := n]) == Reconnections(tasks)[j := n.stats.reconnections];
    assert ErrorCounts(tasks[j := n]) == ErrorCounts(tasks)[j := |n.stats.errors|];
    SumNatUpdate(Reconnections(tasks), j, n.stats.reconnections);
    SumNatUpdate(ErrorCounts(tasks), j, |n.stats.errors|);
  }

  /** A resumption, counted in the global counters, keeps the streams consistent. */
  lemma ResumeKeepsStreams(selected: seq<Camera>, tasks: seq<Coroutine>, index: map<int, nat>, order: seq<int>,
                           totalReconnections: nat, totalErrors: nat, j: nat, n: Coroutine, dr: nat, de: nat)
    requires StreamsOk(selected, tasks, index, order, totalReconnections, totalErrors) && j < |tasks|
    requires CoroutineOk(n) && n.stats.cameraId == tasks[j].stats.cameraId
    requires n.stats.reconnections == tasks[j].stats.reconnections + dr
    requires |n.stats.errors| == |tasks[j].stats.errors| + de
    ensures StreamsOk(selected, tasks[j := n], index, order, totalReconnections + dr, totalErrors + de)
  {
    ResumeKeepsTasks(selected, index, order, tasks, j, n);
    ResumeKeepsCounters(tasks, j, n, totalReconnections, totalErrors, dr, de);
  }

  /** A resumption of the j-th coroutine, with the shared counters moved alongside, keeps the streams consistent. */
  lemma DeliverKeepsStreams(selected: seq<Camera>, tasks: seq<Coroutine>, index: map<int, nat>, order: seq<int>,
                            totalReconnections: nat, totalErrors: nat, j: nat, e: Event, now: real, stop: bool)
    requires StreamsOk(selected, tasks, index, order, totalReconnections, totalErrors)
    requires j < |tasks| && Enabled(tasks[j], e, now)
    ensures var r := Resume(tasks[j], e, now, stop);
      StreamsOk(selected, tasks[j := r.next], index, order,
                totalReconnections + (if r.reconnectCounted then 1 else 0), totalErrors + (if r.errorCounted then 1 else 0))
  {
    var r := Resume(tasks[j], e, now, stop);
    ResumeKeepsInvariant(tasks[j], e, now, stop);
    ResumeKeepsStreams(selected, tasks, index, order, totalReconnections, totalErrors, j, r.next,
                       if r.reconnectCounted then 1 else 0, if r.errorCounted then 1 else 0);
  }

  /** The monitor's samples never exceed the coroutines begun; the peak is recorded. */
  ghost predicate SamplesOk(samples: seq<Sample>, peak: nat, begun: nat)
  {
    && peak == PeakActive(samples)
    && forall k :: 0 <= k < |samples| ==> samples[k].activeStreams <= begun
  }

  /**
   * The code of stream_camera between two awaits: the stats object and the
   * local buffer and delay as it changes them, and the shared counters it
   * increments.
   */
  method Advance(c: Coroutine, e: Event, now: real, stop: bool) returns (r: Resumption)
    requires Enabled(c, e, now)
    ensures r == Resume(c, e, now, stop)
  {
    match e {
      case Response(code, reason) =>
        if code != 200 {
          r := RecordFailure(c, HttpFailure(code, reason), now, stop);
        } else {
          var stats := c.stats.(status := Connected, lastFrameTime := now);
          r := Resumption(Coroutine(stats, Streaming, [], InitialDelay), false, false);
        }
      case Raised(f) =>
        r := RecordFailure(c, f, now, stop);
      case Chunk(data) =>
        if stop {
          r := Resumption(Finish(c, now), false, false);
        } else {
          var stats, buffer := ReadChunk(c, data, now);
          r := Resumption(c.(stats := stats, buffer := buffer), false, false);
        }
      case StreamEnd =>
        r := Resumption(Finish(c, now), false, false);
      case Cancel =>
        r := Resumption(Finish(c, now), false, false);
      case SleepDone =>
        var delay := NextDelay(c.reconnectDelay);
        if stop {
          r := Resumption(Finish(c.(reconnectDelay := delay), now), false, false);
        } else {
          r := Resumption(c.(phase := Requesting, reconnectDelay := delay, stats := c.stats.(status := Connecting)),
                          false, false);
        }
    }
  }

  /** One chunk read while streaming: count its bytes, consume the markers in the buffer, cap the buffer. */
  method ReadChunk(c: Coroutine, data: seq<FS.Byte>, now: real) returns (stats: StreamStats, buffer: seq<FS.Byte>)
    requires now > c.stats.startTime
    ensures buffer == FS.ChunkEffect(c.buffer, data).1
    ensures stats == AfterChunk(c.stats, FS.Frames(c.buffer + data), |data|, now)
  {
    buffer := c.buffer + data;
    stats := c.stats.(totalBytes := c.stats.totalBytes + |data|);
    var frames, rest := FS.ConsumeMarkers(buffer);
    var total := stats.totalFrames + frames;
    if frames > 0 {
      var fps := if total > 1 then total as real / (now - stats.startTime) else stats.avgFps;
      stats := stats.(totalFrames := total, avgFps := fps, lastFrameTime := now);
    }
    buffer := FS.Truncate(rest);
  }

  /** The except clauses: log the error, then back off and count a reconnection, or leave when stopping. */
  method RecordFailure(c: Coroutine, f: Failure, now: real, stop: bool) returns (r: Resumption)
    ensures r == Fail(c, f, now, stop)
  {
    var stats := c.stats.(errors := c.stats.errors + [ErrorMessage(f)], status := Error);
    if !stop {
      stats := stats.(reconnections := stats.reconnections + 1);
      r := Resumption(c.(stats := stats, phase := BackingOff), true, true);
    } else {
      r := Resumption(Finish(c.(stats := stats), now), true, false);
    }
  }

  class LoadTester {
    const maxConcurrent: int
    const testDuration: int
    const shuffleCameras: bool

    var shouldStop: bool
    var startTime: real
    /** test_cameras: the cameras tasks are created for, in creation order. */
    var selected: seq<Camera>
    /** The stream_camera coroutines that have begun, in the order they were created. */
    var tasks: seq<Coroutine>
    /** active_streams: camera id to the coroutine whose stats the dict holds. */
    var activeStreams: map<int, nat>
    /** The key order of active_streams. */
    var streamOrder: seq<int>
    var systemStats: seq<Sample>
    // global_stats
    var totalStreamsAttempted: nat
    var maxConcurrentAchieved: nat
    var totalReconnections: nat
    var totalErrors: nat

    ghost predicate Valid()
      reads this
    {
      && StreamsOk(selected, tasks, activeStreams, streamOrder, totalReconnections, totalErrors)
      && SamplesOk(systemStats, maxConcurrentAchieved, |tasks|)
      && (maxConcurrent >= 0 ==> |selected| <= maxConcurrent)
      && totalStreamsAttempted == |selected|
    }

    /** The StreamStats values of active_streams, in key order. */
    function ActiveStats(): (s: seq<StreamStats>)
      reads this
      requires Valid()
      ensures |s| == |streamOrder| <= |tasks|
    {
      assert forall k :: 0 <= k < |streamOrder| ==>
        streamOrder[k] in activeStreams && activeStreams[streamOrder[k]] < |tasks|;
      StatsOf(streamOrder, activeStreams, tasks)
    }

    constructor (maxConcurrent: int, testDuration: int, shuffleCameras: bool)
      ensures Valid()
      ensures this.maxConcurrent == maxConcurrent && this.testDuration == testDuration
      ensures this.shuffleCameras == shuffleCameras
      ensures !shouldStop && selected == [] && tasks == [] && activeStreams == map[] && systemStats == []
      ensures totalReconnections == 0 && totalErrors == 0 && maxConcurrentAchieved == 0
    {
      this.maxConcurrent := maxConcurrent;
      this.testDuration := testDuration;
      this.shuffleCameras := shuffleCameras;
      shouldStop := false;
      startTime := 0.0;
      selected := [];
      tasks := [];
      activeStreams := map[];
      streamOrder := [];
      systemStats := [];
      totalStreamsAttempted := 0;
      maxConcurrentAchieved := 0;
      totalReconnections := 0;
      totalErrors := 0;
    }

    /**
     * The part of run_load_test that precedes task creation.  On an error
     * no camera is selected and no task will be created.
     */
    method Launch(fetch: Fetch, shuffled: seq<Camera>, now: real) returns (error: Option<string>)
      requires Valid() && selected == [] && tasks == []
      requires fetch.Fetched? && shuffleCameras ==> multiset(shuffled) == multiset(ActiveCameras(fetch.cameras))
      modifies this
      ensures Valid()
      ensures var s := SelectTestCameras(fetch, shuffleCameras, shuffled, maxConcurrent);
        && (s.SelectionError? ==> error == Some(s.message) && selected == [])
        && (s.Selected? ==> error == None && selected == s.cameras && startTime == now)
      ensures tasks == [] && shouldStop == old(shouldStop)
    {
      var s := SelectTestCameras(fetch, shuffleCameras, shuffled, maxConcurrent);
      match s
      case SelectionError(message) =>
        error := Some(message);
      case Selected(cameras) =>
        error := None;
        startTime := now;
        selected := cameras;
        totalStreamsAttempted := |cameras|;
    }

    /** The signal handler, or the end of the test duration, raising should_stop. */
    method RequestStop()
      requires Valid()
      modifies this`shouldStop
      ensures Valid() && shouldStop
    {
      shouldStop := true;
    }

    /**
     * The next created task starts running: its coroutine creates its
     * stats, registers them in active_streams and tests the loop condition.
     */
    method BeginNext(now: real)
      requires Valid() && |tasks| < |selected|
      modifies this`tasks, this`activeStreams, this`streamOrder
      ensures Valid()
      ensures selected == old(selected) && systemStats == old(systemStats) && shouldStop == old(shouldStop)
      ensures tasks == old(tasks) + [Begin(old(selected[|tasks|]), now, shouldStop)]
      ensures activeStreams == old(activeStreams)[old(selected[|tasks|]).id := old(|tasks|)]
      ensures totalReconnections == old(totalReconnections) && totalErrors == old(totalErrors)
    {
      var camera := selected[|tasks|];
      var c := Begin(camera, now, shouldStop);
      ghost var begun, index, order := tasks, activeStreams, streamOrder;
      if camera.id !in activeStreams {
        streamOrder := streamOrder + [camera.id];
      }
      activeStreams := activeStreams[camera.id := |tasks|];
      tasks := tasks + [c];
      SamplesGrow(systemStats, maxConcurrentAchieved, |begun|);
      BeginKeepsStreams(selected, begun, index, order, totalReconnections, totalErrors, c);
    }

    /**
     * One resumption of the j-th stream coroutine, with the stop flag as it
     * stands, and the matching increments of the shared counters.
     */
    method Deliver(j: nat, e: Event, now: real)
      requires Valid() && j < |tasks| && Enabled(tasks[j], e, now)
      modifies this`tasks, this`totalErrors, this`totalReconnections
      ensures Valid()
      ensures var r := Resume(old(tasks[j]), e, now, old(shouldStop));
        && tasks == old(tasks)[j := r.next]
        && totalErrors == old(totalErrors) + (if r.errorCounted then 1 else 0)
        && totalReconnections == old(totalReconnections) + (if r.reconnectCounted then 1 else 0)
      ensures shouldStop == old(shouldStop) && selected == old(selected) && systemStats == old(systemStats)
      ensures activeStreams == old(activeStreams) && streamOrder == old(streamOrder)
      ensures maxConcurrentAchieved == old(maxConcurrentAchieved)
    {
      var r := Advance(tasks[j], e, now, shouldStop);
      DeliverKeepsStreams(selected, tasks, activeStreams, streamOrder, totalReconnections, totalErrors, j, e, now, shouldStop);
      tasks := tasks[j := r.next];
      totalErrors := totalErrors + (if r.errorCounted then 1 else 0);
      totalReconnections := totalReconnections + (if r.reconnectCounted then 1 else 0);
    }

    /**
     * One iteration of monitor_system_resources: unless stopping, record a
     * sample with the number of connected streams and raise
     * max_concurrent_achieved to it.
     */
    method SampleResources(cpuPercent: real, memoryPercent: real, now: real) returns (sampled: bool)
      requires Valid()
      modifies this
      ensures Valid()
      ensures sampled == !shouldStop
      ensures var stats := old(ActiveStats());
        sampled ==> (systemStats == old(systemStats) +
          [Sample(now, cpuPercent, memoryPercent, CountConnected(stats), SumFrames(stats), SumBytes(stats))])
      ensures !sampled ==> systemStats == old(systemStats)
      ensures maxConcurrentAchieved ==
        if sampled && CountConnected(old(ActiveStats())) > old(maxConcurrentAchieved)
        then CountConnected(old(ActiveStats())) else old(maxConcurrentAchieved)
      ensures tasks == old(tasks) && selected == old(selected) && activeStreams == old(activeStreams)
      ensures streamOrder == old(streamOrder) && shouldStop == old(shouldStop)
      ensures totalErrors == old(totalErrors) && totalReconnections == old(totalReconnections)
    {
      if shouldStop {
        return false;
      }
      var stats := ActiveStats();
      var activeCount := CountConnected(stats);
      var s := Sample(now, cpuPercent, memoryPercent, activeCount, SumFrames(stats), SumBytes(stats));
      PeakActiveAppend(systemStats, s);
      systemStats := systemStats + [s];
      if activeCount > maxConcurrentAchieved {
        maxConcurrentAchieved := activeCount;
      }
      sampled := true;
    }

    /** generate_report on the tester's current state. */
    ghost function Report(now: real): LoadReport
      reads this
      requires Valid()
    {
      GenerateReport(ActiveStats(), systemStats, maxConcurrent, startTime, now)
    }

    /**
     * The achieved concurrency in the report is the shared
     * max_concurrent_achieved counter, and it never exceeds the number of
     * selected cameras, hence never max_concurrent.
     */
    lemma AchievedWithinTarget(now: real)
      requires Valid()
      ensures Report(now).testInfo.maxConcurrentAchieved == maxConcurrentAchieved
      ensures maxConcurrentAchieved <= |selected|
      ensures maxConcurrent >= 0 ==> maxConcurrentAchieved <= maxConcurrent
    {
      if systemStats != [] {
        var k :| 0 <= k < |systemStats| && systemStats[k].activeStreams == maxConcurrentAchieved;
      }
    }
  }

  // ------------------------------------------------------------------ report

  /** The stats entries with avg_fps > 0, whose FPS values are averaged. */
  function PositiveFps(streams: seq<StreamStats>): (r: seq<real>)
    ensures |r| <= |streams|
    ensures forall k :: 0 <= k < |r| ==> r[k] > 0.0
  {
    if streams == [] then []
    else (if streams[0].avgFps > 0.0 then [streams[0].avgFps] else []) + PositiveFps(streams[1..])
  }

  /** statistics.mean of the positive FPS values, 0 when there are none. */
  function AverageFps(streams: seq<StreamStats>): real
  {
    var v := PositiveFps(streams);
    if v == [] then 0.0 else SumReal(v) / |v| as real
  }

  function Mean(v: seq<real>): real
    requires v != []
  {
    SumReal(v) / |v| as real
  }

  function CountStatus(streams: seq<StreamStats>, s: Status): (n: nat)
    ensures n <= |streams|
  {
    if streams == [] then 0
    else (if streams[0].status == s then 1 else 0) + CountStatus(streams[1..], s)
  }

  /** The defaultdict of status counts: only statuses that occur are keys. */
  function StatusCounts(streams: seq<StreamStats>): map<Status, nat>
  {
    map s: Status | s in [Starting, Connecting, Connected, Error, Disconnected] && CountStatus(streams, s) > 0
      :: CountStatus(streams, s)
  }

  /** `(stream.end_time or end_time) - stream.start_time`: an unset or 0.0 end time uses the report's. */
  function StreamDuration(s: StreamStats, reportEnd: real): real
  {
    var finished := if s.endTime.Some? && s.endTime.value != 0.0 then s.endTime.value else reportEnd;
    finished - s.startTime
  }

  function Entry(s: StreamStats, reportEnd: real): StreamEntry
  {
    StreamEntry(s.cameraId, s.frUrl, s.status, s.totalFrames, s.totalBytes, s.reconnections,
                RoundTo(s.avgFps, 100), RoundTo(StreamDuration(s, reportEnd), 100), s.errors)
  }

  function Entries(streams: seq<StreamStats>, reportEnd: real): (r: seq<StreamEntry>)
    ensures |r| == |streams|
    ensures forall k :: 0 <= k < |r| ==> r[k] == Entry(streams[k], reportEnd)
  {
    if streams == [] then [] else [Entry(streams[0], reportEnd)] + Entries(streams[1..], reportEnd)
  }

  function CpuValues(samples: seq<Sample>): seq<real>
  {
    seq(|samples|, k requires 0 <= k < |samples| => samples[k].cpuPercent)
  }

  function MemoryValues(samples: seq<Sample>): seq<real>
  {
    seq(|samples|, k requires 0 <= k < |samples| => samples[k].memoryPercent)
  }

  function Resources(samples: seq<Sample>): SystemResources
  {
    if samples == [] then SystemResources(0.0, 0.0, 0.0, 0.0)
    else
      SystemResources(RoundTo(Mean(CpuValues(samples)), 100), RoundTo(MaxReal(CpuValues(samples)), 100),
                      RoundTo(Mean(MemoryValues(samples)), 100), RoundTo(MaxReal(MemoryValues(samples)), 100))
  }

  function SumErrors(streams: seq<StreamStats>): nat
  {
    if streams == [] then 0 else |streams[0].errors| + SumErrors(streams[1..])
  }

  function SumReconnections(streams: seq<StreamStats>): nat
  {
    if streams == [] then 0 else streams[0].reconnections + SumReconnections(streams[1..])
  }

  /**
   * generate_report.  Durations, FPS figures, rates and resource figures are
   * rounded to two decimals as reported; analyze_results gets the exact
   * duration and average FPS.
   */
  function GenerateReport(streams: seq<StreamStats>, samples: seq<Sample>, target: int,
                          startTime: real, endTime: real): LoadReport
  {
    var duration := endTime - startTime;
    var frames := SumFrames(streams);
    var bytes := SumBytes(streams);
    var avgFps := AverageFps(streams);
    var achieved := PeakActive(samples);
    LoadReport(
      TestInfo(startTime, endTime, RoundTo(duration, 100), target, achieved),
      StreamPerformance(|streams|, frames, bytes, SumReconnections(streams), RoundTo(avgFps, 100),
                        if duration > 0.0 then RoundTo(bytes as real / duration, 100) else 0.0,
                        if duration > 0.0 then RoundTo(frames as real / duration, 100) else 0.0),
      StatusCounts(streams),
      Resources(samples),
      Entries(streams, endTime),
      AnalyzeResults(target, achieved, avgFps, streams))
  }

  function EntryFrames(entries: seq<StreamEntry>): nat
  {
    if entries == [] then 0 else entries[0].totalFrames + EntryFrames(entries[1..])
  }

  function EntryBytes(entries: seq<StreamEntry>): nat
  {
    if entries == [] then 0 else entries[0].totalBytes + EntryBytes(entries[1..])
  }

  function EntryReconnections(entries: seq<StreamEntry>): nat
  {
    if entries == [] then 0 else entries[0].reconnections + EntryReconnections(entries[1..])
  }

  lemma {:induction false} EntrySums(streams: seq<StreamStats>, reportEnd: real)
    ensures EntryFrames(Entries(streams, reportEnd)) == SumFrames(streams)
    ensures EntryBytes(Entries(streams, reportEnd)) == SumBytes(streams)
    ensures EntryReconnections(Entries(streams, reportEnd)) == SumReconnections(streams)
  {
    if streams != [] {
      EntrySums(streams[1..], reportEnd);
      assert Entries(streams, reportEnd)[1..] == Entries(streams[1..], reportEnd);
    }
  }

  /**
   * The report's totals are the sums over its individual_streams, one entry
   * per stream in active_streams.
   */
  lemma ReportTotalsMatchEntries(streams: seq<StreamStats>, samples: seq<Sample>, target: int,
                                 startTime: real, endTime: real)
    ensures var r := GenerateReport(streams, samples, target, startTime, endTime);
      && |r.streams| == r.performance.totalStreamsAttempted == |streams|
      && r.performance.totalFramesReceived == EntryFrames(r.streams)
      && r.performance.totalBytesReceived == EntryBytes(r.streams)
      && r.performance.totalReconnections == EntryReconnections(r.streams)
  {
    EntrySums(streams, endTime);
  }

  lemma {:induction false} CountStatusTotal(streams: seq<StreamStats>)
    ensures CountStatus(streams, Starting) + CountStatus(streams, Connecting) + CountStatus(streams, Connected)
          + CountStatus(streams, Error) + CountStatus(streams, Disconnected) == |streams|
  {
    if streams != [] {
      CountStatusTotal(streams[1..]);
    }
  }

  /** The stream_status counts add up to the number of streams, one key per status present. */
  lemma StatusCountsTotal(streams: seq<StreamStats>)
    ensures var m := StatusCounts(streams);
      && (forall s :: s in m <==> exists k :: 0 <= k < |streams| && streams[k].status == s)
      && (if Starting in m then m[Starting] else 0) + (if Connecting in m then m[Connecting] else 0)
         + (if Connected in m then m[Connected] else 0) + (if Error in m then m[Error] else 0)
         + (if Disconnected in m then m[Disconnected] else 0) == |streams|
  {
    CountStatusTotal(streams);
    forall s ensures CountStatus(streams, s) > 0 <==> exists k :: 0 <= k < |streams| && streams[k].status == s {
      CountStatusPositive(streams, s);
    }
  }

  lemma {:induction false} CountStatusPositive(streams: seq<StreamStats>, s: Status)
    ensures CountStatus(streams, s) > 0 <==> exists k :: 0 <= k < |streams| && streams[k].status == s
  {
    if streams != [] {
      CountStatusPositive(streams[1..], s);
      if CountStatus(streams[1..], s) > 0 {
        var k :| 0 <= k < |streams[1..]| && streams[1..][k].status == s;
        assert streams[k + 1].status == s;
      }
      if exists k :: 0 <= k < |streams| && streams[k].status == s {
        var k :| 0 <= k < |streams| && streams[k].status == s;
        if k > 0 {
          assert streams[1..][k - 1].status == s;
        }
      }
    }
  }

  /** Streams with avg_fps == 0 do not change the average FPS. */
  lemma ZeroFpsIgnored(streams: seq<StreamStats>, idle: StreamStats)
    requires idle.avgFps == 0.0
    ensures AverageFps(streams + [idle]) == AverageFps(streams)
  {
    PositiveFpsAppend(streams, [idle]);
    assert PositiveFps([idle]) == [];
    assert PositiveFps(streams) + [] == PositiveFps(streams);
  }

  lemma {:induction false} PositiveFpsAppend(a: seq<StreamStats>, b: seq<StreamStats>)
    ensures PositiveFps(a + b) == PositiveFps(a) + PositiveFps(b)
  {
    if a == [] {
      assert a + b == b;
    } else {
      assert (a + b)[1..] == a[1..] + b;
      PositiveFpsAppend(a[1..], b);
    }
  }

  lemma {:induction false} SumPositive(v: seq<real>)
    requires forall k :: 0 <= k < |v| ==> v[k] > 0.0
    ensures v != [] ==> SumReal(v) > 0.0
    ensures SumReal(v) >= 0.0
  {
    if v != [] {
      SumPositive(v[1..]);
    }
  }

  /** The average FPS is 0 exactly when no stream has a positive FPS, and positive otherwise. */
  lemma AverageFpsSign(streams: seq<StreamStats>)
    ensures AverageFps(streams) >= 0.0
    ensures AverageFps(streams) > 0.0 <==> PositiveFps(streams) != []
  {
    SumPositive(PositiveFps(streams));
  }

  // ---------------------------------------------------------------- analysis

  /** max_concurrent / target, or 0 when the target is not positive. */
  function SuccessRate(achieved: int, target: int): real
  {
    if target > 0 then achieved as real / target as real else 0.0
  }

  function SummaryTierOf(rate: real): SummaryTier
  {
    if rate >= 0.9 then Excellent
    else if rate >= 0.7 then Good
    else if rate >= 0.5 then Moderate
    else Poor
  }

  function CapacityOf(avgFps: real): CapacityTier
  {
    if avgFps >= 20.0 then HighPerformance
    else if avgFps >= 10.0 then ModeratePerformance
    else if avgFps >= 5.0 then LowPerformance
    else VeryLowPerformance
  }

  /** Position of a tier from best (0) to worst (3). */
  function TierRank(t: SummaryTier): nat
  {
    match t
    case Excellent => 0
    case Good => 1
    case Moderate => 2
    case Poor => 3
  }

  /** The recommendation given when no issue is found. */
  const Healthy: string := "System performed well within tested parameters"

  /** analyze_results. */
  function AnalyzeResults(target: int, achieved: int, avgFps: real, streams: seq<StreamStats>): (a: Analysis)
    ensures |a.recommendations| >= 1
    ensures |a.recommendations| == if a.issues == [] then 1 else |a.issues|
    ensures a.issues == [] <==> a.recommendations == [Healthy]
    ensures target <= 0 ==> a.tier == Poor
  {
    var errors := SumErrors(streams);
    var reconnections := SumReconnections(streams);
    var e := if errors as real > achieved as real * 0.1 then [HighErrorRate(errors)] else [];
    var er := if errors as real > achieved as real * 0.1 then ["Investigate network stability and server capacity"] else [];
    var r := if reconnections > achieved then [FrequentReconnections(reconnections)] else [];
    var rr := if reconnections > achieved then ["Check stream server stability and network conditions"] else [];
    var t := if (achieved as real) < target as real * 0.8 then [TargetNotAchieved] else [];
    var tr := if (achieved as real) < target as real * 0.8
      then ["Consider increasing server resources or reducing stream quality"] else [];
    var issues := e + r + t;
    var recs := er + rr + tr;
    assert |recs| == |issues|;
    assert recs != [] ==> recs != [Healthy] by {
      if |recs| == 1 {
        assert |recs[0]| != |Healthy|;
      }
    }
    Analysis(SummaryTierOf(SuccessRate(achieved, target)), achieved, target, CapacityOf(avgFps), issues,
             if recs == [] then [Healthy] else recs)
  }

  /** A larger achieved concurrency against the same target never gets a worse summary tier. */
  lemma TierMonotone(a1: int, a2: int, target: int)
    requires a1 <= a2
    ensures TierRank(SummaryTierOf(SuccessRate(a2, target))) <= TierRank(SummaryTierOf(SuccessRate(a1, target)))
  {
    if target > 0 {
      assert a1 as real / target as real <= a2 as real / target as real by {
        DivMonotone(a1 as real, a2 as real, target as real);
      }
    }
  }

  lemma DivMonotone(x: real, y: real, d: real)
    requires x <= y && d > 0.0
    ensures x / d <= y / d
  {
    assert y / d - x / d == (y - x) / d;
  }

  /** Meeting the target in full is EXCELLENT; achieving less than half of it is POOR. */
  lemma TierExtremes(achieved: int, target: int)
    requires target > 0
    ensures achieved >= target ==> SummaryTierOf(SuccessRate(achieved, target)) == Excellent
    ensures 2 * achieved < target ==> SummaryTierOf(SuccessRate(achieved, target)) == Poor
  {
    var t, a := target as real, achieved as real;
    if achieved >= target {
      DivMonotone(t, a, t);
      assert t / t == 1.0;
    }
    if 2 * achieved < target {
      DivStrict(a, t / 2.0, t);
      assert (t / 2.0) / t == 0.5;
    }
  }

  lemma DivStrict(x: real, y: real, d: real)
    requires x < y && d > 0.0
    ensures x / d < y / d
  {
    assert y / d - x / d == (y - x) / d;
  }
}
