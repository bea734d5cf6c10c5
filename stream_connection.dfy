/**
 * One stream_camera coroutine of camera_stream_load_test.py, as a state
 * machine driven by the events it can observe at its await points.
 *
 * The coroutine is suspended in one of three places: waiting for the HTTP
 * response (Requesting), waiting for the next body chunk (Streaming) or
 * sleeping before a reconnect (BackingOff).  Every resumption is one Event
 * delivered at clock value `now`, with the tester's shared `should_stop`
 * flag as it stands at that moment.  Resume is the specification of one
 * resumption; LoadTester.Deliver (module StreamHarness) is the imperative
 * code, proved against it.
 */
module StreamConnection {
  import opened Common
  import opened ReportData
  import FS = FrameScanner

  /** A camera record of the inventory: its id, its status code and its stream URL. */
  datatype Camera = Camera(id: int, status: int, frUrl: string)

  /**
   * An exception raised while connecting or reading.  The connection-level
   * aiohttp errors get one message prefix, every other exception another.
   */
  datatype Failure = ConnectionFailure(detail: string) | OtherFailure(detail: string)

  datatype Event =
    | Response(httpStatus: int, reason: string)   // session.get returned a response
    | Raised(failure: Failure)                     // connecting or reading raised
    | Chunk(data: seq<FS.Byte>)                    // iter_chunked produced a chunk
    | StreamEnd                                    // the body ended
    | Cancel                                       // the task was cancelled at this await
    | SleepDone                                    // the backoff sleep finished

  /** Where the coroutine is suspended; Finished once it has returned. */
  datatype Phase = Requesting | Streaming | BackingOff | Finished

  /** The StreamStats dataclass. */
  datatype StreamStats = StreamStats(
    cameraId: int,
    frUrl: string,
    startTime: real,
    endTime: Option<real>,
    totalFrames: nat,
    totalBytes: nat,
    reconnections: nat,
    errors: seq<string>,
    lastFrameTime: real,
    avgFps: real,
    status: Status)

  /** The coroutine's stats object and its local variables. */
  datatype Coroutine = Coroutine(stats: StreamStats, phase: Phase, buffer: seq<FS.Byte>, reconnectDelay: real)

  /**
   * The coroutine after one resumption, and whether that resumption
   * incremented the shared total_errors and total_reconnections counters.
   */
  datatype Resumption = Resumption(next: Coroutine, errorCounted: bool, reconnectCounted: bool)

  const InitialDelay: real := 1.0
  const MaxDelay: real := 30.0
  const BackoffFactor: real := 1.5

  /** StreamStats(camera_id, fr_url, start_time) with every default. */
  function NewStats(camera: Camera, now: real): StreamStats
  {
    StreamStats(camera.id, camera.frUrl, now, None, 0, 0, 0, [], 0.0, 0.0, Starting)
  }

  /** The clean-up after the reconnect loop: disconnected, with an end time. */
  function Finish(c: Coroutine, now: real): Coroutine
  {
    c.(phase := Finished, stats := c.stats.(status := Disconnected, endTime := Some(now)))
  }

  /** The text appended to `errors` for a caught exception. */
  function ErrorMessage(f: Failure): string
  {
    match f
    case ConnectionFailure(d) => "Connection error: " + d
    case OtherFailure(d) => "Stream error: " + d
  }

  /** A non-200 response is raised as a plain Exception("HTTP <status>: <reason>"). */
  function HttpFailure(status: int, reason: string): Failure
  {
    OtherFailure("HTTP " + IntToString(status) + ": " + reason)
  }

  /** min(delay * 1.5, 30.0). */
  function NextDelay(d: real): real
  {
    if d * BackoffFactor < MaxDelay then d * BackoffFactor else MaxDelay
  }

  /** The per-chunk update of the stats, given the frames the scan counted. */
  function AfterChunk(s: StreamStats, frames: nat, chunkLength: nat, now: real): StreamStats
    requires now != s.startTime
  {
    var total := s.totalFrames + frames;
    s.(totalBytes := s.totalBytes + chunkLength,
       totalFrames := total,
       avgFps := if frames > 0 && total > 1 then total as real / (now - s.startTime) else s.avgFps,
       lastFrameTime := if frames > 0 then now else s.lastFrameTime)
  }

  /**
   * The events a coroutine can observe where it is suspended.  A chunk is
   * only read after the stream's start time (the clock has advanced).
   */
  predicate Enabled(c: Coroutine, e: Event, now: real)
  {
    match c.phase
    case Requesting => e.Response? || e.Raised? || e.Cancel?
    case Streaming => (e.Chunk? && now > c.stats.startTime) || e.StreamEnd? || e.Raised? || e.Cancel?
    case BackingOff => e.SleepDone? || e.Cancel?
    case Finished => false
  }

  /** What the state machine keeps true between resumptions. */
  ghost predicate CoroutineOk(c: Coroutine)
  {
    && InitialDelay <= c.reconnectDelay <= MaxDelay
    && (c.phase == Requesting ==> c.stats.status == Connecting)
    && (c.phase == Streaming ==>
          c.stats.status == Connected && !FS.HasMarker(c.buffer) && |c.buffer| <= FS.MaxBuffer)
    && (c.phase == BackingOff ==> c.stats.status == Error)
    && (c.phase == Finished <==> c.stats.status == Disconnected)
    && (c.phase == Finished <==> c.stats.endTime.Some?)
    && c.stats.reconnections <= |c.stats.errors|
    && c.stats.avgFps >= 0.0
  }

  /**
   * The coroutine's first run: create and register the stats, then test
   * the loop condition once.
   */
  function Begin(camera: Camera, now: real, stop: bool): (c: Coroutine)
    ensures CoroutineOk(c)
    ensures c.stats.cameraId == camera.id && c.stats.startTime == now
    ensures c.stats.totalFrames == 0 && c.stats.totalBytes == 0
    ensures c.stats.reconnections == 0 && c.stats.errors == []
    ensures c.phase == (if stop then Finished else Requesting)
  {
    var c := Coroutine(NewStats(camera, now), Requesting, [], InitialDelay);
    if stop then Finish(c, now) else c.(stats := c.stats.(status := Connecting))
  }

  /** A caught exception: log it, and either back off or leave the loop. */
  function Fail(c: Coroutine, f: Failure, now: real, stop: bool): Resumption
  {
    var s := c.stats.(errors := c.stats.errors + [ErrorMessage(f)], status := Error);
    if stop then Resumption(Finish(c.(stats := s), now), true, false)
    else Resumption(c.(stats := s.(reconnections := s.reconnections + 1), phase := BackingOff), true, true)
  }

  /** One resumption of the coroutine. */
  ghost function Resume(c: Coroutine, e: Event, now: real, stop: bool): (r: Resumption)
    requires Enabled(c, e, now)
    // the shared counters move with the stream's own
    ensures |r.next.stats.errors| == |c.stats.errors| + (if r.errorCounted then 1 else 0)
    ensures r.next.stats.errors[..|c.stats.errors|] == c.stats.errors
    ensures r.next.stats.reconnections == c.stats.reconnections + (if r.reconnectCounted then 1 else 0)
    ensures r.reconnectCounted ==> r.errorCounted && !stop
    // however the loop is left, the stream ends disconnected with an end time
    ensures r.next.phase == Finished ==>
              r.next.stats.status == Disconnected && r.next.stats.endTime == Some(now)
    ensures e.Cancel? || e.StreamEnd? ==> r.next.phase == Finished
    ensures stop && !e.Response? ==> r.next.phase == Finished
    // a chunk read while running adds its length to total_bytes and its frames to total_frames
    ensures e.Chunk? && !stop ==>
              && r.next.stats.totalBytes == c.stats.totalBytes + |e.data|
              && r.next.stats.totalFrames == c.stats.totalFrames + FS.Frames(c.buffer + e.data)
    // the backoff delay: reset by a 200 response, grown by a finished sleep, otherwise kept
    ensures e.Response? && e.httpStatus == 200 ==> r.next.reconnectDelay == InitialDelay
    ensures e.SleepDone? ==> r.next.reconnectDelay == NextDelay(c.reconnectDelay)
    ensures !e.SleepDone? && !(e.Response? && e.httpStatus == 200) ==> r.next.reconnectDelay == c.reconnectDelay
    ensures r.next.stats.cameraId == c.stats.cameraId && r.next.stats.startTime == c.stats.startTime
  {
    match e
    case Response(code, reason) =>
      if code != 200 then Fail(c, HttpFailure(code, reason), now, stop)
      else
        Resumption(Coroutine(c.stats.(status := Connected, lastFrameTime := now), Streaming, [], InitialDelay),
                   false, false)
    case Raised(f) => Fail(c, f, now, stop)
    case Chunk(data) =>
      if stop then Resumption(Finish(c, now), false, false)
      else
        var (frames, buffer) := FS.ChunkEffect(c.buffer, data);
        Resumption(c.(stats := AfterChunk(c.stats, frames, |data|, now), buffer := buffer), false, false)
    case StreamEnd => Resumption(Finish(c, now), false, false)
    case Cancel => Resumption(Finish(c, now), false, false)
    case SleepDone =>
      var d := NextDelay(c.reconnectDelay);
      if stop then Resumption(Finish(c.(reconnectDelay := d), now), false, false)
      else Resumption(c.(phase := Requesting, reconnectDelay := d, stats := c.stats.(status := Connecting)),
                      false, false)
  }

  /** Every resumption keeps the state machine's invariant. */
  lemma ResumeKeepsInvariant(c: Coroutine, e: Event, now: real, stop: bool)
    requires CoroutineOk(c) && Enabled(c, e, now)
    ensures CoroutineOk(Resume(c, e, now, stop).next)
  {
    if e.Chunk? && !stop {
      ChunkKeepsInvariant(c, e.data, now);
    }
  }

  /** A chunk read while streaming leaves a clean, bounded buffer and a non-negative FPS. */
  lemma ChunkKeepsInvariant(c: Coroutine, data: seq<FS.Byte>, now: real)
    requires CoroutineOk(c) && c.phase == Streaming && now > c.stats.startTime
    ensures CoroutineOk(Resume(c, Chunk(data), now, false).next)
  {
    FS.ChunkLeavesCleanBuffer(c.buffer, data);
    var (frames, buffer) := FS.ChunkEffect(c.buffer, data);
    var total := c.stats.totalFrames + frames;
    if frames > 0 && total > 1 {
      QuotientAtLeast(total as real, now - c.stats.startTime, 0.0);
    }
  }

  /** 1.5 to the power n. */
  function Pow15(n: nat): (p: real)
    ensures p >= 1.0
  {
    if n == 0 then 1.0 else BackoffFactor * Pow15(n - 1)
  }

  /** The delay after n back-to-back failures since the last 200 response. */
  function DelayAfter(n: nat): real
  {
    if n == 0 then InitialDelay else NextDelay(DelayAfter(n - 1))
  }

  /** Closed form of the backoff: min(1.5^n, 30). */
  lemma {:induction false} DelayAfterClosedForm(n: nat)
    ensures DelayAfter(n) == if Pow15(n) < MaxDelay then Pow15(n) else MaxDelay
    ensures InitialDelay <= DelayAfter(n) <= MaxDelay
  {
    if n > 0 {
      DelayAfterClosedForm(n - 1);
    }
  }

  /** One delivery attempt in a trace: the event, the clock, the shared stop flag. */
  datatype Step = Step(event: Event, now: real, stop: bool)

  /**
   * The coroutine after a trace of steps.  A step the coroutine cannot
   * observe where it is suspended (for instance anything after it returned)
   * is not delivered to it.
   */
  ghost function Run(c: Coroutine, steps: seq<Step>): Coroutine
    decreases |steps|
  {
    if steps == [] then c
    else
      var s := steps[0];
      var c' := if Enabled(c, s.event, s.now) then Resume(c, s.event, s.now, s.stop).next else c;
      Run(c', steps[1..])
  }

  /** The invariant holds along every trace. */
  lemma {:induction false} RunKeepsInvariant(c: Coroutine, steps: seq<Step>)
    requires CoroutineOk(c)
    ensures CoroutineOk(Run(c, steps))
    decreases |steps|
  {
    if steps != [] {
      var s := steps[0];
      if Enabled(c, s.event, s.now) {
        ResumeKeepsInvariant(c, s.event, s.now, s.stop);
      }
      var c' := if Enabled(c, s.event, s.now) then Resume(c, s.event, s.now, s.stop).next else c;
      RunKeepsInvariant(c', steps[1..]);
    }
  }

  /** A coroutine that has returned stays returned, with its stats frozen. */
  lemma {:induction false} RunAfterFinish(c: Coroutine, steps: seq<Step>)
    requires c.phase == Finished
    ensures Run(c, steps) == c
    decreases |steps|
  {
    if steps != [] {
      RunAfterFinish(c, steps[1..]);
    }
  }

  /**
   * Once the tester cancels the task, the stream has ended disconnected with
   * an end time, whatever happened before (run_load_test cancels every task).
   */
  lemma {:induction false} CancelledRunEndsDisconnected(c: Coroutine, steps: seq<Step>, k: nat)
    requires CoroutineOk(c)
    requires k < |steps| && steps[k].event == Cancel
    ensures Run(c, steps).phase == Finished
    ensures Run(c, steps).stats.status == Disconnected && Run(c, steps).stats.endTime.Some?
    decreases |steps|
  {
    var s := steps[0];
    var c' := if Enabled(c, s.event, s.now) then Resume(c, s.event, s.now, s.stop).next else c;
    if Enabled(c, s.event, s.now) {
      ResumeKeepsInvariant(c, s.event, s.now, s.stop);
    }
    if k == 0 {
      assert c'.phase == Finished;
      RunAfterFinish(c', steps[1..]);
    } else {
      CancelledRunEndsDisconnected(c', steps[1..], k - 1);
    }
  }
}
