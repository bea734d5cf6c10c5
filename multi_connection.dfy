/**
 * MultiConnectionLoadTester of multi_connection_load_test.py: several
 * connections to each selected camera, each run by a
 * stream_single_connection coroutine, and the capacity estimate drawn from
 * the connections' final state.
 *
 * A connection goes through the same frame scan as the single-stream
 * harness but has no stop flag: it ends when its body ends or its task is
 * cancelled.  Failures double the backoff delay (capped at 30 s).  The
 * `finally` clause rewrites every status except "error" to
 * "disconnected", so once the tasks have been cancelled and joined no
 * connection is "connected", and the connection analysis always reports
 * that there was no successful connection (CancelAllLeavesNoSuccess).
 */
module MultiConnection {
  import opened Common
  import opened ReportData
  import FS = FrameScanner
  import SC = StreamConnection
  import SH = StreamHarness

  // ------------------------------------------------------------ connection

  /** An entry of `errors`: the clock value and str() of the exception. */
  datatype ErrorEntry = ErrorEntry(time: real, message: string)

  /** The ConnectionStats dataclass. */
  datatype ConnectionStats = ConnectionStats(
    connectionId: string,
    cameraId: int,
    cameraUrl: string,
    connectionNumber: int,
    startTime: real,
    endTime: Option<real>,
    totalFrames: nat,
    totalBytes: nat,
    reconnections: nat,
    errors: seq<ErrorEntry>,
    lastFrameTime: real,
    avgFps: real,
    status: Status)

  /**
   * Where the coroutine is suspended.  Created: the task exists but has not
   * run yet.  Finished: the coroutine has returned (or was cancelled before
   * it ever ran).
   */
  datatype Phase = Created | Requesting | Streaming | BackingOff | Finished

  datatype Event =
    | Start                                        // the task runs for the first time
    | Response(httpStatus: int, reason: string)    // session.get returned a response
    | Raised(message: string)                      // an Exception with this str() was raised
    | Chunk(data: seq<FS.Byte>)                    // iter_chunked produced a chunk
    | StreamEnd                                    // the body ended
    | Cancel                                       // task.cancel() reached this await
    | SleepDone                                    // the backoff sleep finished

  datatype Connection = Connection(stats: ConnectionStats, phase: Phase, buffer: seq<FS.Byte>, reconnectDelay: real)

  const InitialDelay: real := 1.0
  const MaxDelay: real := 30.0

  /** f"camera_{camera_id}_conn_{conn_num}". */
  function ConnectionId(cameraId: int, connNum: nat): string
  {
    "camera_" + IntToString(cameraId) + "_conn_" + NatToString(connNum)
  }

  /** The stats created for connection `connNum` of a camera, and the task not yet run. */
  function NewConnection(camera: SC.Camera, connNum: nat, now: real): (c: Connection)
    ensures c.phase == Created && c.stats.status == Starting
    ensures c.stats.connectionId == ConnectionId(camera.id, connNum)
  {
    var stats := ConnectionStats(ConnectionId(camera.id, connNum), camera.id, camera.frUrl, connNum, now, None,
                                 0, 0, 0, [], 0.0, 0.0, Starting);
    Connection(stats, Created, [], InitialDelay)
  }

  /** The sleep before reconnecting: min(reconnect_delay, max_reconnect_delay). */
  function SleepLength(c: Connection): (d: real)
    ensures d <= MaxDelay
    ensures d == c.reconnectDelay || d == MaxDelay
  {
    if c.reconnectDelay < MaxDelay then c.reconnectDelay else MaxDelay
  }

  /** min(delay * 2, max_reconnect_delay). */
  function Doubled(d: real): real
  {
    if d * 2.0 < MaxDelay then d * 2.0 else MaxDelay
  }

  /** The `finally` clause: end time set, any status but "error" becomes "disconnected". */
  function Close(c: Connection, now: real): Connection
  {
    var status := if c.stats.status != Error then Disconnected else Error;
    c.(phase := Finished, stats := c.stats.(endTime := Some(now), status := status))
  }

  /** The `except Exception` branch: count a reconnection, log, mark "error", then sleep. */
  function Fail(c: Connection, message: string, now: real): Connection
  {
    var s := c.stats;
    c.(phase := BackingOff,
       stats := s.(reconnections := s.reconnections + 1, errors := s.errors + [ErrorEntry(now, message)],
                   status := Error))
  }

  /** The per-chunk update of the stats, given the frames the scan counted. */
  function AfterChunk(s: ConnectionStats, frames: nat, chunkLength: nat, now: real): ConnectionStats
    requires now != s.startTime
  {
    var total := s.totalFrames + frames;
    s.(totalBytes := s.totalBytes + chunkLength,
       totalFrames := total,
       avgFps := if frames > 0 && total > 1 then total as real / (now - s.startTime) else s.avgFps,
       lastFrameTime := if frames > 0 then now else s.lastFrameTime)
  }

  /** The events a connection can observe where it is suspended. */
  predicate Enabled(c: Connection, e: Event, now: real)
  {
    match c.phase
    case Created => e.Start? || e.Cancel?
    case Requesting => e.Response? || e.Raised? || e.Cancel?
    case Streaming => (e.Chunk? && now > c.stats.startTime) || e.StreamEnd? || e.Raised? || e.Cancel?
    case BackingOff => e.SleepDone? || e.Cancel?
    case Finished => false
  }

  /** What stream_single_connection keeps true between resumptions. */
  ghost predicate ConnectionOk(c: Connection)
  {
    && InitialDelay <= c.reconnectDelay <= MaxDelay
    && (c.phase == Created ==> c.stats.status == Starting && c.stats.endTime.None?)
    && (c.phase == Requesting ==> c.stats.status == Connecting)
    && (c.phase == Streaming ==>
          c.stats.status == Connected && !FS.HasMarker(c.buffer) && |c.buffer| <= FS.MaxBuffer)
    && (c.phase == BackingOff ==> c.stats.status == Error)
    && (c.phase == Finished ==> c.stats.status != Connected && c.stats.status != Connecting)
    && (c.stats.endTime.Some? ==> c.phase == Finished)
    && c.stats.reconnections == |c.stats.errors|
    && c.stats.avgFps >= 0.0
  }

  /** One resumption of stream_single_connection. */
  ghost function Resume(c: Connection, e: Event, now: real): (r: Connection)
    requires Enabled(c, e, now)
    // every caught failure is one reconnection and one logged error
    ensures r.stats.reconnections - c.stats.reconnections == |r.stats.errors| - |c.stats.errors|
    ensures |r.stats.errors| >= |c.stats.errors| && r.stats.errors[..|c.stats.errors|] == c.stats.errors
    ensures r.phase == BackingOff <==> (e.Raised? || (e.Response? && e.httpStatus != 200))
    ensures r.phase == BackingOff ==> r.stats.reconnections == c.stats.reconnections + 1
    // the finally clause never leaves a connection "connected"
    ensures r.phase == Finished && c.phase != Created ==> r.stats.status != Connected
    ensures e.Cancel? || e.StreamEnd? ==> r.phase == Finished
    ensures (e.Cancel? || e.StreamEnd?) && c.phase != Created ==>
              r.stats.endTime == Some(now) && (r.stats.status == Error <==> c.stats.status == Error)
    // the delay: reset by a 200 response, doubled (up to 30 s) by a finished sleep, otherwise kept
    ensures e.Response? && e.httpStatus == 200 ==> r.reconnectDelay == InitialDelay
    ensures e.SleepDone? ==> r.reconnectDelay == Doubled(c.reconnectDelay)
    ensures !e.SleepDone? && !(e.Response? && e.httpStatus == 200) ==> r.reconnectDelay == c.reconnectDelay
    // a chunk adds its length to total_bytes and its frames to total_frames
    ensures e.Chunk? ==>
              && r.stats.totalBytes == c.stats.totalBytes + |e.data|
              && r.stats.totalFrames == c.stats.totalFrames + FS.Frames(c.buffer + e.data)
    ensures r.stats.connectionId == c.stats.connectionId && r.stats.startTime == c.stats.startTime
  {
    match e
    case Start => c.(phase := Requesting, stats := c.stats.(status := Connecting))
    case Response(code, reason) =>
      if code != 200 then Fail(c, "HTTP " + IntToString(code) + ": " + reason, now)
      else Connection(c.stats.(status := Connected, lastFrameTime := now), Streaming, [], InitialDelay)
    case Raised(message) => Fail(c, message, now)
    case Chunk(data) =>
      var (frames, buffer) := FS.ChunkEffect(c.buffer, data);
      c.(stats := AfterChunk(c.stats, frames, |data|, now), buffer := buffer)
    case StreamEnd => Close(c, now)
    case Cancel => if c.phase == Created then c.(phase := Finished) else Close(c, now)
    case SleepDone => c.(phase := Requesting, reconnectDelay := Doubled(c.reconnectDelay),
                         stats := c.stats.(status := Connecting))
  }

  /** What task.cancel() and the join leave of a task: a finished one is untouched. */
  ghost function Cancelled(c: Connection, now: real): (r: Connection)
    ensures r.phase == Finished
    ensures c.phase != Created && c.phase != Finished ==> r.stats.endTime == Some(now)
  {
    if c.phase == Finished then c else Resume(c, Cancel, now)
  }

  /** Every resumption keeps the invariant. */
  lemma ResumeKeepsInvariant(c: Connection, e: Event, now: real)
    requires ConnectionOk(c) && Enabled(c, e, now)
    ensures ConnectionOk(Resume(c, e, now))
  {
    if e.Chunk? {
      FS.ChunkLeavesCleanBuffer(c.buffer, e.data);
    }
  }

  /** 2 to the power n. */
  function Pow2(n: nat): (p: real)
    ensures p >= 1.0
  {
    if n == 0 then 1.0 else 2.0 * Pow2(n - 1)
  }

  /** The delay after n back-to-back failures since the last 200 response. */
  function DelayAfter(n: nat): real
  {
    if n == 0 then InitialDelay else Doubled(DelayAfter(n - 1))
  }

  /** Closed form of the doubling backoff: min(2^n, 30). */
  lemma {:induction false} DelayAfterClosedForm(n: nat)
    ensures DelayAfter(n) == if Pow2(n) < MaxDelay then Pow2(n) else MaxDelay
    ensures InitialDelay <= DelayAfter(n) <= MaxDelay
  {
    if n > 0 {
      DelayAfterClosedForm(n - 1);
    }
  }

  /** The body of the `async for chunk` loop: count the bytes, scan for frames, cut the buffer back. */
  method ReadChunk(stats: ConnectionStats, buffer: seq<FS.Byte>, data: seq<FS.Byte>, now: real)
    returns (stats': ConnectionStats, buffer': seq<FS.Byte>)
    requires now != stats.startTime
    ensures stats' == AfterChunk(stats, FS.Frames(buffer + data), |data|, now)
    ensures buffer' == FS.ChunkEffect(buffer, data).1
  {
    buffer' := buffer + data;
    stats' := stats.(totalBytes := stats.totalBytes + |data|);
    var frames, rest := FS.ConsumeMarkers(buffer');
    var total := stats.totalFrames + frames;
    if frames > 0 {
      var fps := if total > 1 then total as real / (now - stats.startTime) else stats.avgFps;
      stats' := stats'.(totalFrames := total, avgFps := fps, lastFrameTime := now);
    }
    buffer' := FS.Truncate(rest);
  }

  /**
   * The code of stream_single_connection between two awaits, changing the
   * stats, the buffer and the delay as the source does.
   */
  method Advance(c: Connection, e: Event, now: real) returns (r: Connection)
    requires Enabled(c, e, now)
    ensures r == Resume(c, e, now)
  {
    var stats, phase, buffer, delay := c.stats, c.phase, c.buffer, c.reconnectDelay;
    var failure: Option<string> := None;
    match e {
      case Start =>
        stats := stats.(status := Connecting);
        phase := Requesting;
      case Response(code, reason) =>
        if code != 200 {
          failure := Some("HTTP " + IntToString(code) + ": " + reason);
        } else {
          stats := stats.(status := Connected, lastFrameTime := now);
          delay := InitialDelay;
          buffer := [];
          phase := Streaming;
        }
      case Raised(message) =>
        failure := Some(message);
      case Chunk(data) =>
        stats, buffer := ReadChunk(stats, buffer, data, now);
      case StreamEnd =>
        phase := Finished;
      case Cancel =>
        phase := Finished;
      case SleepDone =>
        delay := Doubled(delay);
        stats := stats.(status := Connecting);
        phase := Requesting;
    }
    if failure.Some? {
      stats := stats.(reconnections := stats.reconnections + 1,
                      errors := stats.errors + [ErrorEntry(now, failure.value)], status := Error);
      phase := BackingOff;
    }
    if phase == Finished && c.phase != Created {
      stats := stats.(endTime := Some(now), status := if stats.status != Error then Disconnected else Error);
    }
    r := Connection(stats, phase, buffer, delay);
  }

  // -------------------------------------------------------------- analysis

  /** The "connected" connections, in dictionary order. */
  function ConnectedOnly(conns: seq<ConnectionStats>): (r: seq<ConnectionStats>)
    ensures |r| <= |conns|
    ensures forall k :: 0 <= k < |r| ==> r[k].status == Connected && r[k] in conns
    ensures (exists k :: 0 <= k < |conns| && conns[k].status == Connected) <==> r != []
  {
    if conns == [] then []
    else
      var tail := ConnectedOnly(conns[1..]);
      assert forall k :: 1 <= k < |conns| ==> conns[k] == conns[1..][k - 1];
      if conns[0].status == Connected then [conns[0]] + tail else tail
  }

  function FramesOf(conns: seq<ConnectionStats>): nat
  {
    if conns == [] then 0 else conns[0].totalFrames + FramesOf(conns[1..])
  }

  function BytesOf(conns: seq<ConnectionStats>): nat
  {
    if conns == [] then 0 else conns[0].totalBytes + BytesOf(conns[1..])
  }

  function ReconnectionsOf(conns: seq<ConnectionStats>): nat
  {
    if conns == [] then 0 else conns[0].reconnections + ReconnectionsOf(conns[1..])
  }

  function PositiveFps(conns: seq<ConnectionStats>): seq<real>
  {
    if conns == [] then []
    else (if conns[0].avgFps > 0.0 then [conns[0].avgFps] else []) + PositiveFps(conns[1..])
  }

  /**
   * The result of analyze_connection_performance.  The success rate, the
   * two FPS figures and the reconnection rate are rounded as reported (to
   * 1, 2, 2 and 3 decimals), since the later grading tests those values.
   */
  datatype ConnectionAnalysis =
    | NoSuccessfulConnections
    | ConnectionSummary(
        attempted: nat,
        successful: nat,
        successPercent: real,
        totalFrames: nat,
        totalBytes: nat,
        totalReconnections: nat,
        averageFps: real,
        globalFps: real,
        reconnectionRate: real)

  /** What every summary analyze_connection_performance returns satisfies. */
  predicate WellFormed(a: ConnectionAnalysis)
  {
    a.ConnectionSummary? ==> 0 < a.successful <= a.attempted && 0.0 <= a.successPercent <= 100.0
  }

  /** The mean of the positive FPS values of the connected connections (0 without one). */
  function MeanFps(connected: seq<ConnectionStats>): (r: real)
    ensures PositiveFps(connected) == [] ==> r == 0.0
  {
    var fps := PositiveFps(connected);
    if fps == [] then 0.0 else SumReal(fps) / |fps| as real
  }

  /**
   * "connection_success_rate": the connected share as a percentage rounded
   * to one decimal.  The 95 / 90 / 80 thresholds tested on it are reached
   * from 94.95 / 89.95 / 79.95 percent of the exact share on.
   */
  function ConnectionSuccessRate(successful: nat, attempted: nat): (r: real)
    requires 0 < successful <= attempted
    ensures 0.0 <= r <= 100.0
    ensures -0.05 <= r - successful as real / attempted as real * 100.0 <= 0.05
    ensures r >= 95.0 <==> 2000 * successful >= 1899 * attempted
    ensures r >= 90.0 <==> 2000 * successful >= 1799 * attempted
    ensures r >= 80.0 <==> 2000 * successful >= 1599 * attempted
  {
    RoundedPercentBounds(successful, attempted);
    RoundedPercentAtLeast(successful, attempted, 950);
    RoundedPercentAtLeast(successful, attempted, 900);
    RoundedPercentAtLeast(successful, attempted, 800);
    RoundTo(successful as real / attempted as real * 100.0, 10)
  }

  /**
   * "reconnection_rate": reconnections per connected connection, rounded to
   * three decimals.  It stays at or below 0.1 / 0.2 / 0.4 up to 0.1005 /
   * 0.2005 / 0.4005 and exceeds 0.15 past 0.1505.
   */
  function ReconnectionRateOf(reconnections: nat, connected: nat): (r: real)
    requires connected > 0
    ensures r >= 0.0
    ensures -0.0005 <= r - reconnections as real / connected as real <= 0.0005
    ensures r <= 0.1 <==> 2000 * reconnections <= 201 * connected
    ensures r <= 0.2 <==> 2000 * reconnections <= 401 * connected
    ensures r <= 0.4 <==> 2000 * reconnections <= 801 * connected
    ensures r > 0.15 <==> 2000 * reconnections > 301 * connected
  {
    assert reconnections as real / connected as real >= 0.0;
    RoundedRatioAtMost(reconnections, connected, 100);
    RoundedRatioAtMost(reconnections, connected, 200);
    RoundedRatioAtMost(reconnections, connected, 400);
    RoundedRatioAtMost(reconnections, connected, 150);
    RoundTo(reconnections as real / connected as real, 1000)
  }

  /**
   * "average_fps_per_connection": the mean FPS rounded to two decimals; it
   * reaches 20 / 15 from a mean of 19.995 / 14.995 on.
   */
  function AverageFpsPerConnection(connected: seq<ConnectionStats>): (r: real)
    ensures -0.005 <= r - MeanFps(connected) <= 0.005
    ensures r >= 20.0 <==> MeanFps(connected) >= 19.995
    ensures r >= 15.0 <==> MeanFps(connected) >= 14.995
  {
    var m := MeanFps(connected);
    RoundedAtLeast(m, 100, 2000);
    RoundedAtLeast(m, 100, 1500);
    RoundTo(m, 100)
  }

  /** analyze_connection_performance over the values of connection_stats. */
  function AnalyzeConnections(conns: seq<ConnectionStats>, testDuration: int): (a: ConnectionAnalysis)
    ensures WellFormed(a)
    ensures a.NoSuccessfulConnections? <==> forall k :: 0 <= k < |conns| ==> conns[k].status != Connected
    ensures a.ConnectionSummary? ==>
      && 0 < a.successful <= a.attempted == |conns|
      && a.successful == |ConnectedOnly(conns)|
      && a.totalReconnections == ReconnectionsOf(conns)
      && a.successPercent == ConnectionSuccessRate(a.successful, a.attempted)
      && a.reconnectionRate == ReconnectionRateOf(a.totalReconnections, a.successful)
      && a.averageFps == AverageFpsPerConnection(ConnectedOnly(conns))
  {
    var connected := ConnectedOnly(conns);
    if connected == [] then NoSuccessfulConnections
    else
      var frames := FramesOf(connected);
      var reconnections := ReconnectionsOf(conns);
      ConnectionSummary(
        |conns|, |connected|, ConnectionSuccessRate(|connected|, |conns|), frames, BytesOf(connected),
        reconnections, AverageFpsPerConnection(connected),
        if testDuration > 0 then RoundTo(frames as real / testDuration as real, 100) else 0.0,
        ReconnectionRateOf(reconnections, |connected|))
  }

  datatype Confidence = High | Medium | Low

  /** The result of estimate_capacity. */
  datatype Capacity =
    | CapacityError
    | CapacityEstimate(
        estimatedMax: nat,
        confidence: Confidence,
        utilizationPercent: real,
        singleViewer: nat,
        dualViewer: nat,
        multiViewer: nat,
        safeDeployment: nat,
        warningThreshold: nat,
        criticalThreshold: nat)

  /** The capacity estimate from the successful count and the success rate (a fraction). */
  function EstimateMax(successful: nat, rate: real): (r: (nat, Confidence))
    ensures r.0 >= successful
    ensures r.1 == High <==> rate >= 0.95
    ensures r.1 == Low ==> r.0 == successful
  {
    if rate >= 0.95 then
      var est := Trunc(successful as real / 0.8);
      assert successful as real <= successful as real / 0.8;
      (est, High)
    else if rate >= 0.90 then
      var est := Trunc(successful as real / 0.9);
      assert successful as real <= successful as real / 0.9;
      (est, Medium)
    else (successful, Low)
  }

  /** int(x) of a non-negative product, as a nat. */
  function Fraction(n: nat, factor: real): (r: nat)
    requires 0.0 <= factor <= 1.0
    ensures r <= n
  {
    assert n as real * factor <= n as real;
    Trunc(n as real * factor)
  }

  /** estimate_capacity. */
  function EstimateCapacity(a: ConnectionAnalysis): (c: Capacity)
    requires WellFormed(a)
    ensures a.NoSuccessfulConnections? <==> c.CapacityError?
    ensures c.CapacityEstimate? ==>
      && a.successful <= c.estimatedMax
      && c.multiViewer <= c.dualViewer <= c.singleViewer == c.estimatedMax
      && c.safeDeployment <= c.warningThreshold <= c.criticalThreshold <= c.estimatedMax
      && 0.0 < c.utilizationPercent <= 100.0
  {
    match a
    case NoSuccessfulConnections => CapacityError
    case ConnectionSummary(_, successful, percent, _, _, _, _, _, _) =>
      var (est, confidence) := EstimateMax(successful, percent / 100.0);
      FractionMonotone(est, 0.7, 0.8);
      FractionMonotone(est, 0.8, 0.9);
      assert successful as real / est as real <= 1.0;
      CapacityEstimate(est, confidence, successful as real / est as real * 100.0,
                       est, est / 2, est / 4,
                       Fraction(est, 0.7), Fraction(est, 0.8), Fraction(est, 0.9))
  }

  lemma FractionMonotone(n: nat, f: real, g: real)
    requires 0.0 <= f <= g <= 1.0
    ensures Fraction(n, f) <= Fraction(n, g)
  {
    assert n as real * f <= n as real * g;
    TruncMonotone(n as real * f, n as real * g);
  }

  /**
   * The estimate never falls below the successful count, rises by at most a
   * quarter of it, and is exact when the success rate is below 90 %.
   */
  lemma EstimateRange(successful: nat, rate: real)
    ensures successful <= EstimateMax(successful, rate).0 <= successful + successful / 4
    ensures rate < 0.90 ==> EstimateMax(successful, rate).0 == successful
  {
    if rate >= 0.95 {
      assert successful as real / 0.8 == successful as real * 1.25;
      var q := successful / 4;
      assert successful as real / 0.8 < (successful + q + 1) as real;
    } else if rate >= 0.90 {
      assert successful as real / 0.9 <= successful as real * 1.25;
      var q := successful / 4;
      assert successful as real * 1.25 < (successful + q + 1) as real;
    }
  }

  datatype Deployment = ConservativeDeployment | StandardDeployment | AggressiveDeployment

  /** The result of generate_fr_recommendations. */
  datatype FrPlan =
    | FrError
    | FrPlan(
        recommended: Deployment,
        confidence: Confidence,
        conservativeCameras: nat,
        standardCameras: nat,
        aggressiveCameras: nat,
        phaseOneCameras: nat,
        phaseTwoCameras: nat,
        hundredCamerasFeasible: bool,
        networkBottleneck: bool,
        connectionBottleneck: bool,
        processingBottleneck: bool)

  /** The scenario chosen by the reconnection rate. */
  function ChooseDeployment(reconnectionRate: real): (r: (Deployment, Confidence))
    ensures r.0 == StandardDeployment <==> reconnectionRate <= 0.1
    ensures r.1 == High <==> reconnectionRate <= 0.1
    ensures r.1 == Medium <==> 0.1 < reconnectionRate <= 0.2
    ensures r.0 != AggressiveDeployment
  {
    if reconnectionRate <= 0.1 then (StandardDeployment, High)
    else if reconnectionRate <= 0.2 then (ConservativeDeployment, Medium)
    else (ConservativeDeployment, Low)
  }

  /** Bytes in a GiB (1024 ** 3). */
  const GiB: nat := 1073741824

  /**
   * "total_data_gb": the bytes in GiB rounded to three decimals; it exceeds
   * 10 exactly when the bytes exceed 10.0005 GiB.
   */
  function TotalDataGb(bytes: nat): (r: real)
    ensures r >= 0.0
    ensures r > 10.0 <==> 2000 * bytes > 20001 * GiB
  {
    assert bytes as real / GiB as real >= 0.0;
    RoundedRatioAtMost(bytes, GiB, 10000);
    RoundTo(bytes as real / GiB as real, 1000)
  }

  /** generate_fr_recommendations. */
  function FrRecommendations(a: ConnectionAnalysis): (p: FrPlan)
    requires WellFormed(a)
    ensures a.NoSuccessfulConnections? <==> p.FrError?
    ensures p.FrPlan? ==>
      && p.recommended != AggressiveDeployment
      && p.phaseOneCameras <= p.phaseTwoCameras
      && p.conservativeCameras <= p.standardCameras <= p.aggressiveCameras
      && (p.hundredCamerasFeasible <==> EstimateCapacity(a).singleViewer >= 100)
      && (p.networkBottleneck <==> 2000 * a.totalBytes > 20001 * GiB)
      && (p.connectionBottleneck <==> a.successPercent < 95.0)
      && (p.processingBottleneck <==> a.reconnectionRate > 0.15)
  {
    match EstimateCapacity(a)
    case CapacityError => FrError
    case CapacityEstimate(_, _, _, single, _, _, _, _, _) =>
      var conservative := single / 2;
      var standard := Fraction(single, 0.7);
      var aggressive := Fraction(single, 0.9);
      FractionMonotone(single, 0.7, 0.9);
      assert conservative <= standard by {
        assert single as real * 0.7 >= (single / 2) as real;
      }
      var (recommended, confidence) := ChooseDeployment(a.reconnectionRate);
      var cameras := if recommended == StandardDeployment then standard else conservative;
      FrPlan(recommended, confidence, conservative, standard, aggressive, cameras / 2, cameras,
             single >= 100,
             TotalDataGb(a.totalBytes) > 10.0,
             a.successPercent < 95.0,
             a.reconnectionRate > 0.15)
  }

  /** One entry of the recommendations of analyze_results. */
  datatype MultiRecommendation =
    | ServerCanHandle(totalConnections: nat)
    | EstimatedUniqueCameras(cameras: nat)
    | MonitorInProduction
    | InvestigateFailures(failurePercent: real)
    | HighReconnectionRate

  datatype MultiAnalysis =
    | NoConnectionsAnalysis    // "Test failed - no successful connections", no recommendation
    | GradedAnalysis(grade: SummaryTier, recommendations: seq<MultiRecommendation>)

  /** The grade of analyze_results. */
  function Grade(successPercent: real, reconnectionRate: real, avgFps: real): SummaryTier
  {
    if successPercent >= 95.0 && reconnectionRate <= 0.1 && avgFps >= 20.0 then Excellent
    else if successPercent >= 90.0 && reconnectionRate <= 0.2 && avgFps >= 15.0 then Good
    else if successPercent >= 80.0 && reconnectionRate <= 0.4 then Moderate
    else Poor
  }

  /** Each grade holds exactly when its thresholds are met and no better grade's are. */
  lemma GradeThresholds(successPercent: real, reconnectionRate: real, avgFps: real)
    ensures var g := Grade(successPercent, reconnectionRate, avgFps);
      && (g == Excellent <==> successPercent >= 95.0 && reconnectionRate <= 0.1 && avgFps >= 20.0)
      && (g == Poor <==> !(successPercent >= 80.0 && reconnectionRate <= 0.4))
      && (g == Good || g == Excellent ==> successPercent >= 90.0 && reconnectionRate <= 0.2 && avgFps >= 15.0)
  {
  }

  /** analyze_results. */
  function AnalyzeMulti(a: ConnectionAnalysis): (r: MultiAnalysis)
    requires WellFormed(a)
    ensures a.NoSuccessfulConnections? <==> r.NoConnectionsAnalysis?
    ensures r.GradedAnalysis? ==>
      && 3 <= |r.recommendations| <= 5
      && r.recommendations[..3] == [ServerCanHandle(EstimateCapacity(a).estimatedMax),
                                    EstimatedUniqueCameras(EstimateCapacity(a).singleViewer),
                                    MonitorInProduction]
      && (InvestigateFailures(100.0 - a.successPercent) in r.recommendations <==> a.successPercent < 95.0)
      && (HighReconnectionRate in r.recommendations <==> a.reconnectionRate > 0.2)
  {
    match a
    case NoSuccessfulConnections => NoConnectionsAnalysis
    case ConnectionSummary(_, _, percent, _, _, _, fps, _, rate) =>
      var capacity := EstimateCapacity(a);
      var fixed := [ServerCanHandle(capacity.estimatedMax), EstimatedUniqueCameras(capacity.singleViewer),
                    MonitorInProduction];
      var failures := if percent < 95.0 then [InvestigateFailures(100.0 - percent)] else [];
      var reconnects := if rate > 0.2 then [HighReconnectionRate] else [];
      var recs := fixed + failures + reconnects;
      assert recs[..3] == fixed;
      GradedAnalysis(Grade(percent, rate, fps), recs)
  }

  /**
   * Rounding decides at the edge: 189 of 199 connections is 94.97 %, yet
   * the reported success rate is 95.0, so the estimate has high confidence
   * and no connection-failure recommendation is made.
   */
  lemma {:induction false} RoundingReachesNinetyFive(conns: seq<ConnectionStats>, testDuration: int)
    requires |conns| == 199 && |ConnectedOnly(conns)| == 189
    ensures var a := AnalyzeConnections(conns, testDuration);
      && a.ConnectionSummary?
      && a.successful as real / a.attempted as real < 0.95
      && a.successPercent >= 95.0
      && EstimateCapacity(a).confidence == High
      && InvestigateFailures(100.0 - a.successPercent) !in AnalyzeMulti(a).recommendations
  {
    assert 189.0 / 199.0 < 0.95;
  }

  // ---------------------------------------------------------------- tester

  /** The connections planned for one camera: conn_1 … conn_n. */
  function Group(camera: SC.Camera, n: nat, now: real): (g: seq<Connection>)
    ensures |g| == n
  {
    seq(n, k requires 0 <= k < n => NewConnection(camera, k + 1, now))
  }

  /** The ids of one camera group, in order. */
  function GroupIds(cameraId: int, n: nat): (ids: seq<string>)
    ensures |ids| == n
  {
    seq(n, k requires 0 <= k < n => ConnectionId(cameraId, k + 1))
  }

  /** A group of n + 1 extends the group of n by conn_{n+1}, in tasks and in ids. */
  lemma GroupStep(camera: SC.Camera, n: nat, now: real)
    ensures Group(camera, n + 1, now) == Group(camera, n, now) + [NewConnection(camera, n + 1, now)]
    ensures GroupIds(camera.id, n + 1) == GroupIds(camera.id, n) + [ConnectionId(camera.id, n + 1)]
  {
    assert Group(camera, n + 1, now)[..n] == Group(camera, n, now);
    assert GroupIds(camera.id, n + 1)[..n] == GroupIds(camera.id, n);
  }

  /** The connection tasks the nested loops create, camera by camera. */
  function Planned(cameras: seq<SC.Camera>, n: nat, now: real): (p: seq<Connection>)
    ensures |p| == |cameras| * n
  {
    if cameras == [] then []
    else
      var init := cameras[..|cameras| - 1];
      var p := Planned(init, n, now) + Group(cameras[|cameras| - 1], n, now);
      assert |p| == (|cameras| - 1) * n + n;
      p
  }

  lemma PlannedSnoc(cameras: seq<SC.Camera>, c: SC.Camera, n: nat, now: real)
    ensures Planned(cameras + [c], n, now) == Planned(cameras, n, now) + Group(c, n, now)
  {
    assert (cameras + [c])[..|cameras|] == cameras;
  }

  /** range(1, n + 1) is empty when n is not positive. */
  function PerCamera(connectionsPerCamera: int): nat
  {
    if connectionsPerCamera > 0 then connectionsPerCamera else 0
  }

  ghost predicate IndexOk(index: map<string, nat>, order: seq<string>, conns: seq<Connection>)
  {
    && (forall id :: id in index ==> index[id] < |conns| && conns[index[id]].stats.connectionId == id)
    && (forall k :: 0 <= k < |order| ==> order[k] in index)
    && (forall id :: id in index ==> id in order)
    && (forall i, j :: 0 <= i < j < |order| ==> order[i] != order[j])
  }

  function StatsOf(order: seq<string>, index: map<string, nat>, conns: seq<Connection>): (s: seq<ConnectionStats>)
    requires forall k :: 0 <= k < |order| ==> order[k] in index && index[order[k]] < |conns|
    ensures |s| == |order|
    ensures forall k :: 0 <= k < |order| ==> s[k] == conns[index[order[k]]].stats
  {
    if order == [] then [] else [conns[index[order[0]]].stats] + StatsOf(order[1..], index, conns)
  }

  class MultiConnectionTester {
    const cameraCount: int
    const connectionsPerCamera: int
    const totalConnections: int
    const testDuration: int

    /** The connection tasks in creation order. */
    var tasks: seq<Connection>
    /** connection_stats: connection id to the task whose stats the dict holds. */
    var connectionStats: map<string, nat>
    /** The key order of connection_stats. */
    var statsOrder: seq<string>
    /** camera_groups: camera id to its connection ids. */
    var cameraGroups: map<int, seq<string>>

    ghost predicate Valid()
      reads this
    {
      && (forall j :: 0 <= j < |tasks| ==> ConnectionOk(tasks[j]))
      && IndexOk(connectionStats, statsOrder, tasks)
      && totalConnections == cameraCount * connectionsPerCamera
    }

    /** The values of connection_stats, in key order. */
    function Values(): (s: seq<ConnectionStats>)
      reads this
      requires Valid()
      ensures |s| == |statsOrder|
    {
      assert forall k :: 0 <= k < |statsOrder| ==>
        statsOrder[k] in connectionStats && connectionStats[statsOrder[k]] < |tasks|;
      StatsOf(statsOrder, connectionStats, tasks)
    }

    constructor (cameraCount: int, connectionsPerCamera: int, testDuration: int)
      ensures Valid() && tasks == [] && connectionStats == map[] && cameraGroups == map[]
      ensures this.cameraCount == cameraCount && this.connectionsPerCamera == connectionsPerCamera
      ensures this.testDuration == testDuration && totalConnections == cameraCount * connectionsPerCamera
    {
      this.cameraCount := cameraCount;
      this.connectionsPerCamera := connectionsPerCamera;
      this.totalConnections := cameraCount * connectionsPerCamera;
      this.testDuration := testDuration;
      tasks := [];
      connectionStats := map[];
      statsOrder := [];
      cameraGroups := map[];
    }

    /**
     * The selection and fan-out of run_multi_connection_test: fail when
     * fewer active cameras than camera_count are available, otherwise
     * create connections_per_camera connections for each of the first
     * camera_count cameras.
     */
    method CreateConnections(fetch: SH.Fetch, now: real) returns (error: Option<string>)
      requires Valid() && tasks == [] && connectionStats == map[] && statsOrder == [] && cameraGroups == map[]
      modifies this
      ensures Valid()
      ensures fetch.FetchFailed? ==> error == Some(fetch.message) && tasks == []
      ensures fetch.Fetched? && |SH.ActiveCameras(fetch.cameras)| < cameraCount ==>
        && error == Some("Insufficient cameras: " + NatToString(|SH.ActiveCameras(fetch.cameras)|)
                         + " < " + IntToString(cameraCount))
        && tasks == []
      ensures error.None? ==>
        && fetch.Fetched?
        && var selected := Prefix(SH.ActiveCameras(fetch.cameras), cameraCount);
        && tasks == Planned(selected, PerCamera(connectionsPerCamera), now)
        && (cameraCount >= 0 && connectionsPerCamera >= 0 ==> |tasks| == totalConnections)
        && (forall c :: c in selected ==>
              c.id in cameraGroups && cameraGroups[c.id] == GroupIds(c.id, PerCamera(connectionsPerCamera)))
        && (forall id :: id in cameraGroups ==> exists c :: c in selected && c.id == id)
        && (forall i, k :: 0 <= i < |selected| && 1 <= k <= connectionsPerCamera ==>
              ConnectionId(selected[i].id, k) in connectionStats)
    {
      if fetch.FetchFailed? {
        return Some(fetch.message);
      }
      var cameras := SH.ActiveCameras(fetch.cameras);
      if |cameras| < cameraCount {
        return Some("Insufficient cameras: " + NatToString(|cameras|) + " < " + IntToString(cameraCount));
      }
      var selected := Prefix(cameras, cameraCount);
      FanOut(selected, now);
      error := None;
    }

    /** The nested loops: every camera of `selected`, in order, gets its group of connections. */
    method FanOut(selected: seq<SC.Camera>, now: real)
      requires Valid() && tasks == [] && cameraGroups == map[]
      modifies this
      ensures Valid()
      ensures tasks == Planned(selected, PerCamera(connectionsPerCamera), now)
      ensures forall c :: c in selected ==>
        c.id in cameraGroups && cameraGroups[c.id] == GroupIds(c.id, PerCamera(connectionsPerCamera))
      ensures forall id :: id in cameraGroups ==> exists c :: c in selected && c.id == id
      ensures forall i, k :: 0 <= i < |selected| && 1 <= k <= connectionsPerCamera ==>
        ConnectionId(selected[i].id, k) in connectionStats
    {
      var n := PerCamera(connectionsPerCamera);
      var i := 0;
      while i < |selected|
        invariant 0 <= i <= |selected|
        invariant Valid()
        invariant tasks == Planned(selected[..i], n, now)
        invariant forall c :: c in selected[..i] ==> c.id in cameraGroups && cameraGroups[c.id] == GroupIds(c.id, n)
        invariant forall id :: id in cameraGroups ==> exists c :: c in selected[..i] && c.id == id
        invariant forall i', k :: 0 <= i' < i && 1 <= k <= n ==> ConnectionId(selected[i'].id, k) in connectionStats
      {
        var camera := selected[i];
        AddGroup(camera, n, now);
        PlannedSnoc(selected[..i], camera, n, now);
        assert selected[..i + 1] == selected[..i] + [camera];
        i := i + 1;
      }
      assert selected[..i] == selected;
    }

    /** The inner loop for one camera: reset its group, then create conn_1 … conn_n. */
    method AddGroup(camera: SC.Camera, n: nat, now: real)
      requires Valid()
      modifies this`tasks, this`connectionStats, this`statsOrder, this`cameraGroups
      ensures Valid()
      ensures tasks == old(tasks) + Group(camera, n, now)
      ensures cameraGroups == old(cameraGroups)[camera.id := GroupIds(camera.id, n)]
      ensures forall id :: id in old(connectionStats) ==> id in connectionStats
      ensures forall k :: 1 <= k <= n ==> ConnectionId(camera.id, k) in connectionStats
    {
      cameraGroups := cameraGroups[camera.id := []];
      ghost var start := tasks;
      var connNum := 1;
      while connNum <= n
        invariant 1 <= connNum <= n + 1
        invariant Valid()
        invariant tasks == start + Group(camera, connNum - 1, now)
        invariant cameraGroups == old(cameraGroups)[camera.id := GroupIds(camera.id, connNum - 1)]
        invariant forall id :: id in old(connectionStats) ==> id in connectionStats
        invariant forall k :: 1 <= k < connNum ==> ConnectionId(camera.id, k) in connectionStats
      {
        AddConnection(camera, connNum, now);
        GroupStep(camera, connNum - 1, now);
        connNum := connNum + 1;
      }
    }

    /** One pass of the inner loop: conn_{connNum} joins its camera's group and gets its task. */
    method AddConnection(camera: SC.Camera, connNum: nat, now: real)
      requires Valid() && camera.id in cameraGroups
      modifies this`tasks, this`connectionStats, this`statsOrder, this`cameraGroups
      ensures Valid()
      ensures tasks == old(tasks) + [NewConnection(camera, connNum, now)]
      ensures cameraGroups == old(cameraGroups)[camera.id := old(cameraGroups)[camera.id] + [ConnectionId(camera.id, connNum)]]
      ensures connectionStats == old(connectionStats)[ConnectionId(camera.id, connNum) := |old(tasks)|]
    {
      var id := ConnectionId(camera.id, connNum);
      cameraGroups := cameraGroups[camera.id := cameraGroups[camera.id] + [id]];
      Register(id, NewConnection(camera, connNum, now));
    }

    /** `connection_stats[connection_id] = conn_stats` and the task appended. */
    method Register(id: string, c: Connection)
      requires Valid() && ConnectionOk(c) && c.stats.connectionId == id
      modifies this`tasks, this`connectionStats, this`statsOrder
      ensures Valid()
      ensures tasks == old(tasks) + [c]
      ensures connectionStats == old(connectionStats)[id := |old(tasks)|]
    {
      ghost var oldOrder := statsOrder;
      ghost var oldTasks := tasks;
      if id !in connectionStats {
        statsOrder := statsOrder + [id];
      }
      connectionStats := connectionStats[id := |tasks|];
      tasks := tasks + [c];
      assert forall x :: x in statsOrder <==> x in oldOrder || x == id;
      assert forall k :: 0 <= k < |oldOrder| ==> statsOrder[k] == oldOrder[k];
      assert forall k :: 0 <= k < |oldTasks| ==> tasks[k] == oldTasks[k];
    }

    /** One resumption of the j-th connection task. */
    method Deliver(j: nat, e: Event, now: real)
      requires Valid() && j < |tasks| && Enabled(tasks[j], e, now)
      modifies this`tasks
      ensures Valid()
      ensures tasks == old(tasks)[j := Resume(old(tasks[j]), e, now)]
    {
      var r := Advance(tasks[j], e, now);
      ResumeKeepsInvariant(tasks[j], e, now);
      tasks := tasks[j := r];
    }

    /**
     * The end of the test: every task is cancelled and joined.  Afterwards
     * no connection is "connected", so the analysis, the capacity estimate,
     * the deployment plan and the grade all take their error branch.
     */
    method CancelAll(now: real)
      requires Valid()
      modifies this`tasks
      ensures Valid()
      ensures |tasks| == old(|tasks|)
      ensures forall j :: 0 <= j < |tasks| ==> tasks[j] == Cancelled(old(tasks[j]), now)
      ensures forall j :: 0 <= j < |tasks| ==> tasks[j].phase == Finished && tasks[j].stats.status != Connected
      ensures AnalyzeConnections(Values(), testDuration) == NoSuccessfulConnections
      ensures EstimateCapacity(AnalyzeConnections(Values(), testDuration)) == CapacityError
      ensures FrRecommendations(AnalyzeConnections(Values(), testDuration)) == FrError
      ensures AnalyzeMulti(AnalyzeConnections(Values(), testDuration)) == NoConnectionsAnalysis
    {
      CancelTasks(now);
      var values := Values();
      forall k | 0 <= k < |values| ensures values[k].status != Connected {
        assert values[k] == tasks[connectionStats[statsOrder[k]]].stats;
      }
    }

    /**
     * The teardown with the analysis taken first: the connection statistics
     * are read before the tasks are cancelled, so the summary counts the
     * connections that were streaming when the test duration ran out.
     */
    method SnapshotThenCancel(now: real) returns (snapshot: seq<ConnectionStats>)
      requires Valid()
      modifies this`tasks
      ensures Valid()
      ensures snapshot == old(Values())
      ensures |tasks| == old(|tasks|)
      ensures forall j :: 0 <= j < |tasks| ==> tasks[j] == Cancelled(old(tasks[j]), now)
      ensures AnalyzeConnections(snapshot, testDuration).ConnectionSummary?
          <==> exists k :: 0 <= k < |snapshot| && snapshot[k].status == Connected
    {
      snapshot := Values();
      CancelTasks(now);
    }

    /** The cancel-and-join loop over the tasks, in order. */
    method CancelTasks(now: real)
      requires Valid()
      modifies this`tasks
      ensures Valid()
      ensures |tasks| == old(|tasks|)
      ensures forall j :: 0 <= j < |tasks| ==> tasks[j] == Cancelled(old(tasks[j]), now)
    {
      var j := 0;
      while j < |tasks|
        invariant 0 <= j <= |tasks| == old(|tasks|)
        invariant Valid()
        invariant forall i :: 0 <= i < j ==> tasks[i] == Cancelled(old(tasks[i]), now)
        invariant forall i :: j <= i < |tasks| ==> tasks[i] == old(tasks[i])
      {
        if tasks[j].phase != Finished {
          Deliver(j, Cancel, now);
        }
        j := j + 1;
      }
    }
  }
}
