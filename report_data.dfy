/**
 * The shape of the report the stream harness produces and the analysis
 * modules read (generate_report in camera_stream_load_test.py).  The
 * Python report is a nested dict; here every key the consumers read is a
 * typed field.
 */
module ReportData {

  /** The values StreamStats.status takes. */
  datatype Status = Starting | Connecting | Connected | Error | Disconnected

  /** The status string as it appears in the report. */
  function StatusName(s: Status): string
  {
    match s
    case Starting => "starting"
    case Connecting => "connecting"
    case Connected => "connected"
    case Error => "error"
    case Disconnected => "disconnected"
  }

  /** One element of "individual_streams". */
  datatype StreamEntry = StreamEntry(
    cameraId: int,
    frUrl: string,
    status: Status,
    totalFrames: nat,
    totalBytes: nat,
    reconnections: nat,
    avgFps: real,
    durationSeconds: real,
    errors: seq<string>)

  /** "test_info". */
  datatype TestInfo = TestInfo(
    startTime: real,
    endTime: real,
    durationSeconds: real,
    maxConcurrentTarget: int,
    maxConcurrentAchieved: nat)

  /** "stream_performance" (median_fps is not modelled). */
  datatype StreamPerformance = StreamPerformance(
    totalStreamsAttempted: nat,
    totalFramesReceived: nat,
    totalBytesReceived: nat,
    totalReconnections: nat,
    averageFps: real,
    bytesPerSecond: real,
    framesPerSecondGlobal: real)

  /** "system_resources". */
  datatype SystemResources = SystemResources(
    averageCpuPercent: real,
    peakCpuPercent: real,
    averageMemoryPercent: real,
    peakMemoryPercent: real)

  /** The four summary tiers of analyze_results. */
  datatype SummaryTier = Excellent | Good | Moderate | Poor

  /** The four capacity assessments of analyze_results, by average FPS. */
  datatype CapacityTier = HighPerformance | ModeratePerformance | LowPerformance | VeryLowPerformance

  /** The entries of "issues_found". */
  datatype Issue = HighErrorRate(totalErrors: nat) | FrequentReconnections(totalReconnections: nat) | TargetNotAchieved

  /** "analysis": the summary line is its tier with the two counts it prints. */
  datatype Analysis = Analysis(
    tier: SummaryTier,
    achieved: int,
    target: int,
    capacity: CapacityTier,
    issues: seq<Issue>,
    recommendations: seq<string>)

  datatype LoadReport = LoadReport(
    testInfo: TestInfo,
    performance: StreamPerformance,
    streamStatus: map<Status, nat>,
    resources: SystemResources,
    streams: seq<StreamEntry>,
    analysis: Analysis)

  /** run_load_test either returns {"error": ...} or the full report. */
  datatype HarnessResult = HarnessError(message: string) | HarnessReport(report: LoadReport)
}
