# Camera stream load tester — verified model

This project models the decision logic of a load-testing suite for MJPEG camera streams. A harness opens many concurrent HTTP streams and counts frames by scanning for the multipart boundary marker `--frame`. It reconnects with a capped backoff, samples how many streams are connected, and condenses everything into a JSON report. Several programs drive or consume that report:

- capacity controllers (`adaptive_load_test.py`, `simple_max_test.py`);
- a multi-connection variant (`multi_connection_load_test.py`);
- a direct analysis pass (`direct_stream_test.py`);
- report consumers: actionable insights, hierarchical navigation, enhanced output and a real-time dashboard.

The modules follow the source files:

| module | file | what it holds |
|---|---|---|
| `Common` | `common.dfy` | options, sums and maxima over sequences, truncation toward zero, substring search, number formatting |
| `ReportData` | `report_data.dfy` | the stream statuses, per-stream entries and the report the analysis programs consume |
| `FrameScanner` | `frame_scanner.dfy` | the `--frame` scan loop over a byte buffer and the 1 MiB / 512 KiB truncation |
| `StreamConnection` | `stream_connection.dfy` | one connection of `stream_camera` as a class driven by an event trace (connect ok or failed, chunk, stream end, stop, cancel), with the 1.5× backoff capped at 30 s |
| `Stability` | `stability.dfy` | the stability predicate shared by both capacity controllers |
| `StreamHarness` | `stream_harness.dfy` | `CameraStreamLoadTester`: the shared counters, resource sampling, camera selection, `generate_report` and `analyze_results` |
| `MultiConnection` | `multi_connection.dfy` | the connection fan-out, the doubling backoff and the `finally` status, plus the capacity estimate and recommendations |
| `AdaptiveLoad` | `adaptive_load.dfy` | `AdaptiveLoadTester`: the monotone best count, the final report and the adaptive analysis |
| `SimpleMax` | `simple_max.dfy` | the step-down search loop of `find_max_streams` |
| `DirectAnalysis` | `direct_analysis.dfy` | the interpolating percentile, the rating tiers and the enhanced report |
| `ActionableInsights` | `actionable_insights.dfy` | issue classification, the recommendation sort, decision-tree traversal, the priority matrix, the roadmap, health and effort, the executive summary and the assembled insights (as written, the module fails on import; see Findings) |
| `NavigationLayout` | `navigation_layout.dfy` | the fixed catalogue of categories and pages registered at start-up |
| `Navigation`, `NavigationSystem` | `navigation.dfy`, `navigation_system.dfy` | the node registry, the tree, breadcrumbs, inverted indices, filtering and search |
| `EnhancedOutput` | `enhanced_output.dfy` | the stability score, the failure patterns, error categories, alert tiers, recommendations and the audience filter |
| `Dashboard` | `dashboard.dfy` | the bounded metrics cache, baseline anomaly detection, alert thresholds, historical export and the performance report |

Modelling conventions:

- Floating-point ratios, delays and percentages are Dafny `real`, so comparisons at thresholds such as 0.9 or 1.5 are exact.
- Python's `int()` on a float is truncation toward zero (`Common.Trunc`); `//` on non-negative integers is Dafny's `/`.
- Python's `round(x, n)` is modelled (`Common.RoundTo`) wherever a later test compares the rounded value: the nearest multiple of 10^-n, with an exact half going to the even multiple. Thresholds on rounded values are stated as integer inequalities on the counts behind them.
- Bytes are `seq<bv8>`.
- Time, resource samples, camera inventories, stream chunks and the shuffled camera order are inputs.
- Cancellation and the stop flag are events in a connection's trace.

## Model

| member | source | states |
|---|---|---|
| Common.RoundTo | multi_connection_load_test.py:336 | round(x, n) with scale 10^n lands on a multiple of 10^-n within half a unit of x, and is non-negative for non-negative x |
| Common.RoundUnitsAtLeast | multi_connection_load_test.py:336 | the rounded value reaches k units exactly when x is past k - 1/2 units, or exactly at k - 1/2 with k even |
| Common.RoundedPercentAtLeast | multi_connection_load_test.py:336 | a share rounded to one decimal as a percentage reaches k/10 (k even) exactly when 2000 x part >= (2k - 1) x whole |
| Common.RoundedRatioAtMost | multi_connection_load_test.py:343 | a ratio rounded to three decimals is at most k/1000 (k even) exactly when 2000 x r <= (2k + 1) x s |
| FrameScanner.Find | camera_stream_load_test.py:188-189 | the search answers -1 exactly when the buffer holds no "--frame", and otherwise the position of its first occurrence |
| FrameScanner.Split | camera_stream_load_test.py:188-204 | the consumed segments, each followed by its marker, and the rest put back together give the scanned buffer; every segment is marker-free and the rest holds no marker |
| FrameScanner.SplitUnique | camera_stream_load_test.py:188-204 | any decomposition of that form is the one the scan produces |
| FrameScanner.CountNonEmpty | camera_stream_load_test.py:190-191 | frames are counted only for segments of positive length, never more than the markers consumed |
| FrameScanner.LeadingMarkerUncounted | camera_stream_load_test.py:190-204 | a marker at offset 0 is removed without counting a frame |
| FrameScanner.DelimitedFrameCounted | camera_stream_load_test.py:190-204 | a non-empty marker-free segment before a marker counts exactly one frame |
| FrameScanner.FramesBound | camera_stream_load_test.py:188-204 | each counted frame consumes at least eight bytes of the buffer (one byte of frame and the seven-byte marker) |
| FrameScanner.MarkerFreeUntouched | camera_stream_load_test.py:188 | a buffer without a marker is left as it is and counts no frame |
| FrameScanner.Truncate | camera_stream_load_test.py:206-208 | the kept buffer is a suffix of the old one: unchanged up to 1 MiB, otherwise its last 512 KiB |
| FrameScanner.ConsumeMarkers | camera_stream_load_test.py:188-204 | the scanning loop counts exactly the frames Split specifies and leaves exactly its marker-free rest |
| FrameScanner.ChunkLeavesCleanBuffer | camera_stream_load_test.py:184-208 | after every chunk the buffer holds no marker and at most 1 MiB |
| FrameScanner.EmptyChunkNoFrames | camera_stream_load_test.py:184-208 | an empty chunk neither counts a frame nor changes a clean buffer |
| StreamConnection.Begin | camera_stream_load_test.py:143-156 | a new coroutine has fresh stats for its camera with the start time, zero counters and no errors, and is finished at once when stopping was already requested |
| StreamConnection.Resume | camera_stream_load_test.py:156-274 | one resumption counts at most one error and one reconnection, a reconnection only after a counted error and while running, ends disconnected with an end time on cancellation, end of stream or stop, adds a chunk's length and frames while running, and changes the back-off delay only on a 200 response or a finished sleep |
| StreamConnection.ResumeKeepsInvariant | camera_stream_load_test.py:143-274 | every resumption keeps the coroutine's invariant (delay within 1..30, non-negative FPS, clean bounded buffer, phase and status consistent) |
| StreamConnection.Pow15 | camera_stream_load_test.py:241 | every power of the back-off factor 1.5 is at least 1 |
| StreamConnection.DelayAfterClosedForm | camera_stream_load_test.py:267 | after n failed attempts without a 200 response the delay is min(1.5^n, 30), always within 1..30 |
| StreamConnection.RunKeepsInvariant | camera_stream_load_test.py:143-274 | any sequence of resumptions keeps the coroutine's invariant |
| StreamConnection.RunAfterFinish | camera_stream_load_test.py:271-274 | a finished coroutine is never changed again |
| StreamConnection.CancelledRunEndsDisconnected | camera_stream_load_test.py:211-274 | a run in which the task is cancelled ends finished, disconnected and with an end time |
| Stability.AttemptOf | adaptive_load_test.py:96-104 | an error report is seen as an error attempt, and a report yields its max_concurrent_achieved and total_reconnections |
| Stability.ReconnectionRate | adaptive_load_test.py:107 | the rate is undefined (infinite) exactly when nothing was achieved, and otherwise is the non-negative value r with r * achieved = reconnections |
| Stability.StableAchievedSomething | adaptive_load_test.py:110-113 | a stable run achieved at least one stream and at least 90 % of the target, with at most threshold * achieved reconnections |
| Stability.StableMonotone | simple_max_test.py:57-61 | a stable run stays stable with a smaller target, more achieved streams or fewer reconnections |
| StreamHarness.ActiveCameras | camera_stream_load_test.py:121-141 | the kept cameras are exactly the input cameras with status 1 and a non-empty fr_url, none added or duplicated |
| StreamHarness.SelectTestCameras | camera_stream_load_test.py:332-366 | a failed fetch returns its message and no active camera returns "No active cameras found"; otherwise the test set is active cameras, never more than max_concurrent and exactly max_concurrent when that many exist |
| StreamHarness.PeakActive | camera_stream_load_test.py:466-468 | max_concurrent_achieved of the report is the largest active_streams of any sample, 0 without samples |
| StreamHarness.PeakActiveAppend | camera_stream_load_test.py:299-303 | keeping the running maximum at each sample equals the maximum over all samples |
| StreamHarness.CountConnected | camera_stream_load_test.py:284-285 | active_count never exceeds the number of streams |
| StreamHarness.BeginKeepsStreams | camera_stream_load_test.py:143-149 | a coroutine that starts registers its stats under its camera id and leaves the global reconnection and error totals equal to the per-stream sums |
| StreamHarness.ResumeKeepsCounters | camera_stream_load_test.py:217-269 | each error and reconnection a stream counts is also counted once in the global totals, so they stay the per-stream sums |
| StreamHarness.ResumeKeepsStreams | camera_stream_load_test.py:143-274 | a resumption of stream_camera keeps the task list, the active_streams index and the totals consistent |
| StreamHarness.DeliverKeepsStreams | camera_stream_load_test.py:143-274 | a resumption with the shared total_errors and total_reconnections moved by its own increments keeps the streams and the global counters consistent |
| StreamHarness.Advance | camera_stream_load_test.py:143-274 | one resumption of stream_camera (connect, chunk, end of stream, failure, back-off, cancellation) produces exactly the specified next state |
| StreamHarness.ReadChunk | camera_stream_load_test.py:180-208 | a chunk adds its length to total_bytes, counts one frame per consumed marker with avg_fps = frames / elapsed, and leaves the marker-free, capped buffer |
| StreamHarness.RecordFailure | camera_stream_load_test.py:217-269 | a failure appends its message, sets status "error", and either counts a reconnection with the delay grown by 1.5 up to 30 or ends the stream when stopping |
| StreamHarness.LoadTester.constructor | camera_stream_load_test.py:55-78 | the tester starts with no streams, no samples, zero global counters and should_stop false |
| StreamHarness.LoadTester.Launch | camera_stream_load_test.py:332-366 | run_load_test either returns the selection error or records the selected cameras and the start time |
| StreamHarness.LoadTester.RequestStop | camera_stream_load_test.py:116-119 | the signal handler sets should_stop and keeps the invariant |
| StreamHarness.LoadTester.BeginNext | camera_stream_load_test.py:393-397 | creating the next task appends its coroutine, registers it in active_streams and changes nothing else |
| StreamHarness.LoadTester.Deliver | camera_stream_load_test.py:143-274 | delivering an event to one coroutine replaces only that coroutine and adds its counted error and reconnection to the totals |
| StreamHarness.LoadTester.SampleResources | camera_stream_load_test.py:276-303 | a monitor tick appends a sample with the connected count and frame and byte sums and raises max_concurrent_achieved to the connected count; once stopping it samples nothing |
| StreamHarness.LoadTester.AchievedWithinTarget | camera_stream_load_test.py:466-476 | the reported max_concurrent_achieved never exceeds the number of tested cameras nor max_concurrent |
| StreamHarness.PositiveFps | camera_stream_load_test.py:451 | only streams with avg_fps > 0 contribute FPS values |
| StreamHarness.Entries | camera_stream_load_test.py:495-508 | individual_streams has one entry per stream, in active_streams order |
| StreamHarness.ReportTotalsMatchEntries | camera_stream_load_test.py:440-512 | the report's stream count and frame, byte and reconnection totals equal the sums over individual_streams |
| StreamHarness.StatusCountsTotal | camera_stream_load_test.py:455-458 | stream_status has a key exactly for each status present and its counts add up to the number of streams |
| StreamHarness.ZeroFpsIgnored | camera_stream_load_test.py:451-452 | a stream with avg_fps 0 does not change the average FPS |
| StreamHarness.AverageFpsSign | camera_stream_load_test.py:451-452 | the average FPS is never negative and is positive exactly when some stream has a positive FPS |
| StreamHarness.AnalyzeResults | camera_stream_load_test.py:514-564 | there is one recommendation per issue, and the single "performed well" one exactly when no issue is found; a non-positive target grades POOR |
| StreamHarness.TierMonotone | camera_stream_load_test.py:523-533 | achieving more streams against the same target never gives a worse summary grade |
| StreamHarness.TierExtremes | camera_stream_load_test.py:523-533 | reaching the target grades EXCELLENT and reaching less than half of it grades POOR |
| MultiConnection.NewConnection | multi_connection_load_test.py:144-156 | a new connection is created with status "starting" and the id camera_{id}_conn_{n} |
| MultiConnection.SleepLength | multi_connection_load_test.py:288 | the back-off sleep is never longer than 30 s: it is the delay, or 30 s when the delay is larger |
| MultiConnection.Resume | multi_connection_load_test.py:219-294 | one resumption of stream_single_connection counts one reconnection together with one logged error on every caught failure and only then backs off; end of stream and cancellation finish with an end time, keeping "error" and otherwise never leaving "connected"; the delay resets on a 200 response and doubles up to 30 s after a sleep |
| MultiConnection.ResumeKeepsInvariant | multi_connection_load_test.py:219-294 | every resumption keeps the connection invariant (delay within 1..30, clean bounded buffer while streaming, finished connections not "connected") |
| MultiConnection.Pow2 | multi_connection_load_test.py:289 | every power of the back-off factor 2 is at least 1 |
| MultiConnection.DelayAfterClosedForm | multi_connection_load_test.py:288-289 | after n failed attempts without a 200 response the delay is min(2^n, 30), always within 1..30 |
| MultiConnection.ReadChunk | multi_connection_load_test.py:246-271 | a chunk is handled by the same frame scan and truncation as in the single-stream harness |
| MultiConnection.Advance | multi_connection_load_test.py:219-294 | the imperative loop step produces exactly the specified next connection state |
| MultiConnection.ConnectedOnly | multi_connection_load_test.py:321 | the kept connections are connected members of the input, and there are some exactly when some input connection is connected |
| MultiConnection.ConnectionSuccessRate | multi_connection_load_test.py:336 | connection_success_rate lies in [0, 100], within 0.05 of the exact percentage, and reaches 95 / 90 / 80 exactly when 2000 x successful >= 1899 / 1799 / 1599 x attempted |
| MultiConnection.ReconnectionRateOf | multi_connection_load_test.py:343 | reconnection_rate is within 0.0005 of reconnections per connected connection; it is <= 0.1 / 0.2 / 0.4 exactly when 2000 x reconnections <= 201 / 401 / 801 x connected, and > 0.15 exactly when 2000 x reconnections > 301 x connected |
| MultiConnection.AverageFpsPerConnection | multi_connection_load_test.py:330-341 | average_fps_per_connection is within 0.005 of the mean positive FPS and reaches 20 / 15 exactly when that mean reaches 19.995 / 14.995 |
| MultiConnection.AnalyzeConnections | multi_connection_load_test.py:318-344 | "No successful connections" exactly when no connection is connected; otherwise 0 < successful <= attempted, successful counts the connected connections, reconnections are summed over all connections, and the success rate, reconnection rate and average FPS are the rounded values above |
| MultiConnection.EstimateMax | multi_connection_load_test.py:391-400 | the estimate is never below the successful count, confidence is high exactly at a success rate >= 0.95, and a low-confidence estimate is the successful count itself |
| MultiConnection.EstimateRange | multi_connection_load_test.py:391-400 | the estimate lies between s and s + s/4, and is s below a 0.90 success rate |
| MultiConnection.Fraction | multi_connection_load_test.py:432-434 | truncating a fraction of a count never exceeds the count |
| MultiConnection.EstimateCapacity | multi_connection_load_test.py:381-439 | no capacity without a successful connection; otherwise multi <= dual <= single viewer == estimate, safe <= warning <= critical <= estimate, and a utilisation in (0, 100] |
| MultiConnection.ChooseDeployment | multi_connection_load_test.py:479-487 | standard deployment with high confidence exactly at a rate <= 0.1, medium confidence exactly for 0.1 < rate <= 0.2, never the aggressive one |
| MultiConnection.TotalDataGb | multi_connection_load_test.py:338 | total_data_gb is non-negative and exceeds 10 exactly when 2000 x bytes > 20001 GiB |
| MultiConnection.FrRecommendations | multi_connection_load_test.py:441-514 | an error exactly without a successful connection; otherwise a non-aggressive recommendation, phase one <= phase two, conservative <= standard <= aggressive camera counts, 100-camera feasibility exactly when the single-viewer estimate reaches 100, and the network, connection and processing bottlenecks exactly when total_data_gb > 10, the success rate < 95 and the reconnection rate > 0.15 |
| MultiConnection.GradeThresholds | multi_connection_load_test.py:529-541 | EXCELLENT exactly at >= 95 %, <= 0.1 and >= 20 FPS; POOR exactly when not (>= 80 % and <= 0.4); GOOD or better needs >= 90 %, <= 0.2 and >= 15 FPS |
| MultiConnection.AnalyzeMulti | multi_connection_load_test.py:516-565 | the failure summary exactly without a successful connection; otherwise the three fixed recommendations first, the failure-rate one exactly below 95 % and the reconnection one exactly above 0.2 (both on the rounded values) |
| MultiConnection.RoundingReachesNinetyFive | multi_connection_load_test.py:383-392 | with 189 of 199 connections connected (94.97 %) the rounded success rate reaches 95, so the estimate has high confidence and no connection-failure recommendation is made |
| MultiConnection.Group | multi_connection_load_test.py:144-162 | each camera gets exactly connections_per_camera connections |
| MultiConnection.GroupIds | multi_connection_load_test.py:142-146 | each camera group lists exactly connections_per_camera ids |
| MultiConnection.Planned | multi_connection_load_test.py:140-163 | the planned connections number cameras x connections_per_camera |
| MultiConnection.PlannedSnoc | multi_connection_load_test.py:140-163 | the camera loop appends one camera's group after the previous cameras' |
| MultiConnection.StatsOf | multi_connection_load_test.py:319-321 | connection_stats.values() lists each registered connection's stats in insertion order |
| MultiConnection.MultiConnectionTester.constructor | multi_connection_load_test.py:55-101 | the tester starts with no tasks, stats or groups and total_connections = camera_count x connections_per_camera |
| MultiConnection.MultiConnectionTester.CreateConnections | multi_connection_load_test.py:127-163 | a failed fetch or fewer active cameras than camera_count return the error and create no task; otherwise the first camera_count active cameras get their groups, ids and tasks, camera_count x connections_per_camera in all |
| MultiConnection.MultiConnectionTester.FanOut | multi_connection_load_test.py:140-163 | the nested loops create the planned tasks and one group per selected camera with every id registered |
| MultiConnection.MultiConnectionTester.AddGroup | multi_connection_load_test.py:141-163 | one camera's inner loop appends its group's tasks, records its group and keeps earlier registrations |
| MultiConnection.MultiConnectionTester.AddConnection | multi_connection_load_test.py:145-162 | one pass of the inner loop appends camera_{id}_conn_{n} to its camera's group, stores its stats under that id and appends its task |
| MultiConnection.MultiConnectionTester.Register | multi_connection_load_test.py:148-162 | a connection's stats are registered under its id and its task appended |
| MultiConnection.MultiConnectionTester.Deliver | multi_connection_load_test.py:198-294 | delivering an event replaces only that connection's state, by the specified resumption |
| MultiConnection.Cancelled | multi_connection_load_test.py:176-181 | a cancelled and joined task is finished; a running one gets its end time, a finished one is untouched |
| MultiConnection.MultiConnectionTester.CancelAll | multi_connection_load_test.py:176-186 | the number of tasks is kept and each task becomes its cancelled state; after that no connection is "connected", so the analysis, the capacity estimate, the FR recommendations and analyze_results all take their no-success branch |
| MultiConnection.MultiConnectionTester.CancelTasks | multi_connection_load_test.py:176-181 | the loop cancels the tasks in order, keeping their number, each task becoming its cancelled state |
| MultiConnection.MultiConnectionTester.SnapshotThenCancel | multi_connection_load_test.py:176-186 | reading the statistics before the cancellation gives a summary exactly when some connection was connected, and leaves the tasks as CancelAll does |
| AdaptiveLoad.SummaryOf | adaptive_load_test.py:115-124 | a run's result summary records its target, its achieved count, its reconnection rate and whether the stability predicate holds |
| AdaptiveLoad.BestCountIsMaxStable | adaptive_load_test.py:136-137 | the best-count fold is the largest achieved count of any stable result, and 0 exactly when no result is stable |
| AdaptiveLoad.BestResult | adaptive_load_test.py:200-202 | best_stable_configuration is absent exactly when no result is stable, and otherwise is the first stable result with the largest achieved count |
| AdaptiveLoad.BestResultMatchesBestCount | adaptive_load_test.py:200-202 | a best configuration exists exactly when the best count is positive, and then achieved that count |
| AdaptiveLoad.CountStable | adaptive_load_test.py:200-215 | the stable results are never more than all results |
| AdaptiveLoad.StableOnly | adaptive_load_test.py:241 | the stable results are all stable and as many as counted |
| AdaptiveLoad.UnstableCounts | adaptive_load_test.py:267-268 | the unstable targets are exactly the stream counts of the unstable results |
| AdaptiveLoad.MinInt | adaptive_load_test.py:268 | the first unstable count is the smallest of the unstable targets and is one of them |
| AdaptiveLoad.ProductionLimitOf | adaptive_load_test.py:272 | the production limit max(1, int(0.8 best)) is at least 1 and never above a positive best count |
| AdaptiveLoad.AnalyzeAdaptive | adaptive_load_test.py:224-277 | best 0 gives the failure summary with its three fixed recommendations; otherwise the tier of the best count, characteristics exactly when some result is stable, the three fixed recommendations last, and a leading "Stay below" the smallest unstable target exactly when an unstable result exists |
| AdaptiveLoad.AdaptiveLoadTester.constructor | adaptive_load_test.py:29-48 | the tester starts with min_streams 1, max_streams initial_max, best count 0, no iteration and no results |
| AdaptiveLoad.AdaptiveLoadTester.TestStreamCount | adaptive_load_test.py:82-144 | every call counts one iteration; a report appends exactly its summary, an error or exception appends nothing; the best count never decreases and becomes max(old, achieved) only after a stable run |
| AdaptiveLoad.AdaptiveLoadTester.FindMaximumStreams | adaptive_load_test.py:146-196 | one harness run with max_concurrent = initial_max: a selection or fetch error comes back as a result holding only its message; otherwise the harness report for that run, whose target is initial_max and whose duration is end minus start |
| AdaptiveLoad.AdaptiveLoadTester.FinalReportOf | adaptive_load_test.py:198-222 | maximum and recommended streams are the best count, stability_verified exactly with a best configuration, confidence high exactly with three or more stable results, and the iteration count |
| AdaptiveLoad.AdaptiveLoadTester.FinalReportConsistent | adaptive_load_test.py:198-277 | stability is verified exactly when the best count is positive, the best configuration then achieved it, and the analysis reports failure exactly when it is not verified |
| SimpleMax.InitialStep | simple_max_test.py:33 | the first step max(10, start_max // 10) is at least 10 |
| SimpleMax.AdjustedStep | simple_max_test.py:85-89 | halving the step near the end never drops it below 5 nor raises it |
| SimpleMax.Search | simple_max_test.py:32-96 | a found maximum is the positive achieved count of a stable attempt at some target between 1 and start_max |
| SimpleMax.Tried | simple_max_test.py:35-93 | the tried targets are positive, at most start_max, fall by at least 5 from one attempt to the next, and every attempt before the last was unstable |
| SimpleMax.FirstStableWins | simple_max_test.py:57-81 | the search succeeds exactly when its last attempt was stable, and then returns that attempt's achieved count |
| SimpleMax.NotFoundAllUnstable | simple_max_test.py:95-96 | a search that finds nothing tried only unstable targets |
| SimpleMax.FindMaxStreams | simple_max_test.py:19-96 | the step-down loop terminates and returns what the search specifies |
| SimpleMax.StartsAtStartMax | simple_max_test.py:32-35 | no attempt is made exactly when start_max <= 0, and otherwise the first attempt is start_max |
| DirectAnalysis.InsertAscending | direct_stream_test.py:190 | inserting into an ascending list keeps it ascending and adds exactly the one value |
| DirectAnalysis.SortAscending | direct_stream_test.py:190 | sorted() yields an ascending permutation of the FPS values |
| DirectAnalysis.Rank | direct_stream_test.py:195 | the rank k = (n-1) p / 100 lies within 0..n-1 |
| DirectAnalysis.RankMonotone | direct_stream_test.py:195 | a larger percentage never gives a smaller rank |
| DirectAnalysis.Lower | direct_stream_test.py:196 | f = int(k) is a valid index with f <= k < f + 1 |
| DirectAnalysis.Upper | direct_stream_test.py:196 | c = min(f + 1, n - 1) is a valid index equal to f or f + 1, and equal to f only at the last index |
| DirectAnalysis.Percentile | direct_stream_test.py:192-200 | an empty list gives 0; for an ascending list the interpolated value lies between vals[f] and vals[c] |
| DirectAnalysis.PercentileEnds | direct_stream_test.py:192-200 | the 0th percentile is the first value and the 100th the last |
| DirectAnalysis.PercentileWithinRange | direct_stream_test.py:192-200 | every percentile of an ascending list lies between its minimum and its maximum |
| DirectAnalysis.PercentileMonotone | direct_stream_test.py:192-200 | on an ascending list a larger percentage never gives a smaller percentile |
| DirectAnalysis.SquaredDeviations | direct_stream_test.py:210 | the sum of squared deviations is non-negative and zero exactly when every value equals the centre |
| DirectAnalysis.Spread | direct_stream_test.py:210 | the mean squared deviation behind std_dev (no square root is taken) is non-negative and zero exactly when every FPS equals the average |
| DirectAnalysis.StdDev | direct_stream_test.py:210 | the reported std_dev, rounded to 2 decimals, is non-negative, within 0.005 of the spread, and above 5 exactly when the spread exceeds 5.005 |
| DirectAnalysis.RatingOf | direct_stream_test.py:171-178 | EXCELLENT needs 95 % of the target and rate <= 0.1, GOOD 90 % and <= 0.2, MODERATE 80 % and <= 0.5, and POOR means the MODERATE condition fails |
| DirectAnalysis.OverallStableIsStability | direct_stream_test.py:171-184 | overall_stable holds exactly when the shared stability predicate holds with threshold 0.2 |
| DirectAnalysis.RatingMonotone | direct_stream_test.py:171-178 | more achieved streams or fewer reconnections never lower the rating |
| DirectAnalysis.AssessStability | direct_stream_test.py:170-185 | the assessment carries the rating, overall_stable exactly for the stability predicate at 0.2, both thresholds met under EXCELLENT, and the reconnection threshold only with some stream achieved |
| DirectAnalysis.AchievementRate | direct_stream_test.py:162 | the achievement rate is 0 without a positive target; otherwise it is within 0.05 of the exact percentage and reaches 95 / 90 exactly when 2000 x achieved >= 1899 / 1799 x target |
| DirectAnalysis.RoundingReachesNinety | direct_stream_test.py:162 | 188 of 209 streams is below the 90 % share the rating asks for, yet the achievement rate is 90.0 and no "achievement rate low" recommendation is made |
| DirectAnalysis.SummaryAgreesWithRating | direct_stream_test.py:252-260 | with a positive target the summary tier is the rating; with none it is MODERATE for a MODERATE rating and POOR otherwise |
| DirectAnalysis.CountUnstable | direct_stream_test.py:224 | the streams with reconnections are never more than all streams |
| DirectAnalysis.InsertByReconnections | direct_stream_test.py:214 | inserting into a list in non-increasing reconnection order keeps that order |
| DirectAnalysis.InsertAddsOne | direct_stream_test.py:214 | the insertion adds exactly the one entry |
| DirectAnalysis.InsertCountsOne | direct_stream_test.py:214 | the insertion adds one unstable stream exactly when the entry has reconnections |
| DirectAnalysis.SortByReconnections | direct_stream_test.py:214 | the reverse sort by reconnections is an ordered permutation with the same number of unstable streams |
| DirectAnalysis.KeepUnstable | direct_stream_test.py:224 | the filter keeps the entries with reconnections, all taken from the input |
| DirectAnalysis.UnstableComeFirst | direct_stream_test.py:214-224 | in reconnection order the unstable streams form a prefix |
| DirectAnalysis.UnstableInPrefix | direct_stream_test.py:214 | the first n entries of an ordered list hold min(n, unstable count) unstable streams |
| DirectAnalysis.TopStreamsFacts | direct_stream_test.py:214-225 | the kept streams number min(unstable, 5), are in reconnection order, all have reconnections, form a sub-multiset of the report's streams, and no stream left out has more reconnections than any kept one |
| DirectAnalysis.UnstableEntries | direct_stream_test.py:215-225 | each kept stream yields its entry with stability_score 1 - 0.1 reconnections |
| DirectAnalysis.TopUnstable | direct_stream_test.py:213-225 | top_unstable_cameras has min(unstable, 5) entries, at most 5, all with reconnections, in non-increasing order, made one each from a sub-multiset of the report's streams such that no stream left out has more reconnections than any stream taken |
| DirectAnalysis.FpsValues | direct_stream_test.py:189 | one FPS value per stream, in order |
| DirectAnalysis.SortedBounds | direct_stream_test.py:190-209 | min and max of the distribution bound every FPS value |
| DirectAnalysis.FpsDistributionOf | direct_stream_test.py:187-211 | there is a distribution exactly when there are streams, with min <= p25 <= p50 <= p75 <= p90 <= p95 <= max, std_dev the rounded spread of the FPS values, and every stream's FPS between min and max |
| DirectAnalysis.EfficiencyOf | direct_stream_test.py:234-235 | efficiency is high exactly below 70 % and low exactly from 85 % |
| DirectAnalysis.CountAmong | direct_stream_test.py:240-241 | a status filter keeps at most all streams |
| DirectAnalysis.CountAmongDisjoint | direct_stream_test.py:240-241 | filters on disjoint status sets count disjoint streams |
| DirectAnalysis.IdleAndFastDisjoint | direct_stream_test.py:246-247 | zero-FPS and high-performance streams together number at most all streams |
| DirectAnalysis.QualityOf | direct_stream_test.py:238-249 | quality metrics exist exactly when there are streams; success and error rates are non-negative and add up to at most 100, and zero-FPS plus high-performance streams are at most all streams |
| DirectAnalysis.When | direct_stream_test.py:265-278 | a conditional recommendation is present exactly when its condition holds |
| DirectAnalysis.ConditionalRecommendations | direct_stream_test.py:263-278 | each of the five conditional recommendations appears exactly when its condition holds (achievement below 90, rate above 0.2, CPU above 80, std_dev above 5, some unstable camera) |
| DirectAnalysis.DirectRecommendations | direct_stream_test.py:263-286 | the conditional recommendations come first and the three fixed ones always end the list |
| DirectAnalysis.CharacteristicsOf | direct_stream_test.py:153-168 | the characteristics carry the achieved count, its achievement rate (at least 95 exactly when 2000 x achieved >= 1899 x target), and a reconnection rate that is infinite exactly when nothing was achieved |
| DirectAnalysis.AnalyzeDirect | direct_stream_test.py:135-288 | overall stability is the stability predicate at 0.2, the summary tier is the rating for a positive target, and the recommendations end with "System can handle N" and the two fixed entries |
| DirectAnalysis.Enhance | direct_stream_test.py:117-133 | the enhanced report keeps the base report and reports the achieved count; success_rate is the unrounded fraction, within 0.0005 of the achievement rate divided by 100, and both are 0 without a target |
| DirectAnalysis.RunDirectTestAsWritten | direct_stream_test.py:91-96 | as written, constructing the tester with prefix= raises TypeError before any run |
| DirectAnalysis.AsWrittenNeverReports | direct_stream_test.py:91-115 | as written, run_direct_test never returns a report, and differs from the intended behaviour on every harness report |
| DirectAnalysis.RunDirectTest | direct_stream_test.py:98-115 | as intended, an error report is passed on with its message and a report is enhanced |
| ActionableInsights.StreamErrors | actionable_insights_system.py:343 | the error lists are read per stream, in order |
| ActionableInsights.RawOf | actionable_insights_system.py:392 | the raw data carries the report's achieved count, its target and one error list per stream |
| ActionableInsights.AllErrors | actionable_insights_system.py:660-662 | flattening the error lists keeps every error, as many as their total |
| ActionableInsights.TimeoutErrors | actionable_insights_system.py:663 | the timeout errors are among all errors |
| ActionableInsights.CheckOf | actionable_insights_system.py:419-423 | a condition that evaluates holds exactly when it is true, and does not raise |
| ActionableInsights.CountHolds | actionable_insights_system.py:418-421 | the conditions met are never more than the conditions |
| ActionableInsights.CountMet | actionable_insights_system.py:415-423 | the counting loop counts exactly the conditions that hold; a raising condition is skipped |
| ActionableInsights.Conditions | actionable_insights_system.py:317-348 | performance degradation and high resource usage have two conditions, the other classifiers one |
| ActionableInsights.Verdict | actionable_insights_system.py:426-431 | a detected issue carries its type and its classifier's severity |
| ActionableInsights.DetectThreshold | actionable_insights_system.py:426-431 | an issue is detected exactly when met >= 0.6 total, and then its confidence met / total lies in 0.6..1 |
| ActionableInsights.SmallClassifiers | actionable_insights_system.py:426 | a classifier with one or two conditions detects exactly when all of them hold |
| ActionableInsights.RaisedCountsAsUnmet | actionable_insights_system.py:419-423 | a condition that raises counts as not met |
| ActionableInsights.RaisedDetectsAsUnmet | actionable_insights_system.py:419-431 | a raising condition changes no verdict compared with a false one |
| ActionableInsights.DetectionRules | actionable_insights_system.py:317-348 | performance degradation is FPS < 15 and achieved < 0.8 target; high resource usage is CPU > 80 and memory > 80; connectivity instability is reconnections / max(1, achieved) > 0.2; an error surge is more than 20 errors |
| ActionableInsights.ClassifyAll | actionable_insights_system.py:409-433 | every classified issue is of a classifier's type and detected on the data |
| ActionableInsights.ClassifyIssues | actionable_insights_system.py:409-433 | the classifier loop returns exactly the detected issues in classifier order |
| ActionableInsights.RecommendationsFor | actionable_insights_system.py:435-508 | each detected issue brings at most one recommendation (an error surge none) |
| ActionableInsights.KeyIsLexicographic | actionable_insights_system.py:405 | the sort key orders by priority value, then urgency value |
| ActionableInsights.InsertByKey | actionable_insights_system.py:405 | inserting into a key-sorted list keeps it sorted |
| ActionableInsights.InsertAddsOne | actionable_insights_system.py:405 | the insertion adds exactly the one recommendation |
| ActionableInsights.InsertAddsWeight | actionable_insights_system.py:405 | the insertion adds exactly its weight to any tally |
| ActionableInsights.SortByKey | actionable_insights_system.py:405 | the sort yields a key-sorted list of the same length |
| ActionableInsights.SortPermutes | actionable_insights_system.py:405 | the sort is a permutation and keeps every tally |
| ActionableInsights.SortSorted | actionable_insights_system.py:926 | sorting an already sorted list changes nothing, so the second sort in _get_top_actions keeps the order |
| ActionableInsights.GenerateRecommendations | actionable_insights_system.py:388-407 | the recommendations are sorted by key and as many as the issue recommendations plus the two optimisation ones |
| ActionableInsights.IssueRecommendationsOfFour | actionable_insights_system.py:398-399 | the issue recommendations are those of the first three classifiers in order, an error surge adding none |
| ActionableInsights.UnsortedMembers | actionable_insights_system.py:510-592 | the monitoring and runbook recommendations are always present, each issue recommendation appears only when its issue is detected, and the count is 2 plus one per detected issue other than an error surge |
| ActionableInsights.RunbooksLast | actionable_insights_system.py:405 | after the sort the runbook recommendation is last |
| ActionableInsights.ConnectivityFirst | actionable_insights_system.py:405 | after the sort a critical first recommendation is the connection-stability one, which comes first whenever present |
| ActionableInsights.GeneratedOrder | actionable_insights_system.py:388-407 | the sorted list holds monitoring and runbooks, ends with runbooks, and starts with a CRITICAL item exactly when connectivity instability is detected, then the connection-stability one |
| ActionableInsights.ActionsOf | actionable_insights_system.py:928-933 | each top action carries its recommendation's title, priority name, effort and timeline |
| ActionableInsights.CriticalName | actionable_insights_system.py:930 | the priority name is "CRITICAL" exactly for the critical priority |
| ActionableInsights.TopOfSorted | actionable_insights_system.py:924-933 | the top actions are the first min(3, n) recommendations in sorted order |
| ActionableInsights.TopActionsOfReport | actionable_insights_system.py:924-933 | a report has two or three top actions, the first of them CRITICAL exactly when connectivity instability is detected |
| ActionableInsights.Bucket | actionable_insights_system.py:682-733 | a bucket holds at most all recommendations |
| ActionableInsights.BucketMembers | actionable_insights_system.py:682-733 | a recommendation is in a bucket exactly when it is a recommendation with that key |
| ActionableInsights.FourBuckets | actionable_insights_system.py:682-733 | four buckets over four distinct keys covering every recommendation partition the list, sizes included |
| ActionableInsights.BucketCount | actionable_insights_system.py:682-733 | a recommendation appears in its own bucket as often as in the list and in no other bucket |
| ActionableInsights.CreatePriorityMatrix | actionable_insights_system.py:670-695 | the loop puts each recommendation in the quadrant of its impact (severe or major) and urgency (immediate or urgent), keeping order |
| ActionableInsights.MatrixPartition | actionable_insights_system.py:682-693 | the four quadrants partition the recommendations |
| ActionableInsights.GeneratedMembers | actionable_insights_system.py:388-407 | every generated recommendation is one of the unsorted ones, and monitoring and runbooks are among them |
| ActionableInsights.MatrixOfConsistent | actionable_insights_system.py:682-693 | for these recommendations the high-impact-not-urgent and low-impact-urgent quadrants stay empty, and the urgent high-impact one holds exactly the performance and connection-stability items |
| ActionableInsights.MatrixOfReport | actionable_insights_system.py:670-695 | the same quadrant facts hold for the matrix of any report |
| ActionableInsights.CreateRoadmap | actionable_insights_system.py:697-735 | the loop puts each recommendation in the phase of its urgency, keeping order |
| ActionableInsights.RoadmapPartition | actionable_insights_system.py:725-733 | the four phases partition the recommendations and their sizes add up to their number |
| ActionableInsights.RoadmapOfConsistent | actionable_insights_system.py:725-733 | phase 1 holds exactly the connection-stability item, phase 4 exactly the runbooks, and monitoring is in phase 3 |
| ActionableInsights.RoadmapOfReport | actionable_insights_system.py:697-735 | the same phase facts hold for the roadmap of any report |
| ActionableInsights.CountSeverity | actionable_insights_system.py:874-875 | the issues of one severity are never more than all issues |
| ActionableInsights.OverallHealth | actionable_insights_system.py:871-884 | health is "critical" exactly when some issue is severe |
| ActionableInsights.CountSeverityPositive | actionable_insights_system.py:874-882 | some issue of a severity is counted exactly when one exists |
| ActionableInsights.HealthOfReport | actionable_insights_system.py:871-884 | no classifier is severe and at most two are major, so a report's health is never "critical" or "poor", and is "fair" exactly when performance degradation or connectivity instability is detected |
| ActionableInsights.EstimateTotalEffort | actionable_insights_system.py:886-902 | the estimate is "H hours" exactly when the hour total H is below 8, and otherwise "D days" with 8 D <= H < 8 D + 8 |
| ActionableInsights.TallyOfReport | actionable_insights_system.py:388-407 | any tally over the sorted recommendations is the sum over the issue recommendations plus monitoring and runbooks |
| ActionableInsights.EffortOfReport | actionable_insights_system.py:886-902 | a report's effort is 14 hours plus 8, 6 and 4 for performance, resources and connectivity when detected, so always given in days |
| ActionableInsights.SummaryOfReport | actionable_insights_system.py:366-386 | with the current metrics guarded (see Findings), the executive summary needs immediate attention exactly with connectivity instability, counts one critical item for it and one high item per performance or resource issue, lists 2 plus those recommendations, and has fair or good health and an effort in days |
| ActionableInsights.CurrentMetricsAsWritten | actionable_insights_system.py:935-947 | as written, the current metrics raise ZeroDivisionError exactly when max_concurrent_achieved is present and 0, and otherwise are the intended metrics |
| ActionableInsights.CurrentMetricsOf | actionable_insights_system.py:935-947 | as intended, the reconnection rate is reconnections / max(1, achieved), never negative, and above 0.2 exactly when the connectivity classifier detects an instability |
| ActionableInsights.SummarizeAsWritten | actionable_insights_system.py:366-386 | as written, the executive summary raises exactly when max_concurrent_achieved is a present 0, the metrics call at line 383 failing, and otherwise is the intended summary |
| ActionableInsights.SummaryAsWrittenDiffers | actionable_insights_system.py:904-906 | for a harness report the as-written summary raises exactly when no stream ever connected, and otherwise equals the intended one |
| ActionableInsights.GenerateInsightsAsWritten | actionable_insights_system.py:95-102 | as written, ActionableRecommendation puts fields without defaults after defaulted ones, so the module raises TypeError on import and no insight is ever produced |
| ActionableInsights.AsWrittenNeverInsights | actionable_insights_system.py:95-102 | as written, no report gets insights, so the as-written result differs from the intended one for every report |
| ActionableInsights.GenerateInsights | actionable_insights_system.py:350-364 | as intended, the insights hold the summary and the sorted recommendations; the summary counts the recommendations, the priority matrix and the roadmap each partition them with two matrix cells empty, and the immediate phase is non-empty exactly when the summary asks for immediate attention |
| ActionableInsights.ImmediateIffDetected | actionable_insights_system.py:697-735 | the immediate phase of the roadmap is non-empty exactly when connectivity instability is detected |
| ActionableInsights.EvaluateCondition | actionable_insights_system.py:637-668 | an unrecognised condition is false, a reconnection-rate condition with 0 achieved raises and is false, and the timeout condition holds only when more than 70 % of at least one error are timeouts |
| ActionableInsights.TimeoutShare | actionable_insights_system.py:664 | timeouts / max(1, n) > 0.7 exactly when 10 timeouts > 7 max(1, n) |
| ActionableInsights.Route | actionable_insights_system.py:625-635 | the nodes visited before the leaf are all condition nodes |
| ActionableInsights.Destination | actionable_insights_system.py:606-623 | the traversal stops at a leaf or an action node |
| ActionableInsights.Traverse | actionable_insights_system.py:606-635 | the guidance carries the destination's action, confidence 0.9 for a leaf and 0.8 for an action node, and one "YES"/"NO" answer per visited condition node, plus the action node's question |
| ActionableInsights.PerformanceGuidance | actionable_insights_system.py:273-299 | the performance tree answers with confidence 0.9 after 3 questions below 10 FPS and 2 otherwise, and names the action its CPU, memory and reconnection branches select |
| ActionableInsights.ConnectivityGuidance | actionable_insights_system.py:301-312 | the connectivity tree asks 2 questions when there are more than 50 errors and 1 otherwise, and names network optimisation, server investigation or minor tuning accordingly |
| NavigationLayout.Declared | hierarchical_navigation_system.py:88-358 | each declared node starts with no children and carries its layout level and parent |
| NavigationLayout.DeclaredAll | hierarchical_navigation_system.py:88-358 | the declared nodes follow the declaration order |
| NavigationLayout.StandardLayered | hierarchical_navigation_system.py:88-361 | the standard layout is five level-0 roots followed by level-1 pages whose parents are roots |
| NavigationLayout.RootsLayered | hierarchical_navigation_system.py:88-139 | there are five roots, each at level 0 without a parent |
| NavigationLayout.ChildrenLayered | hierarchical_navigation_system.py:147-361 | every page after the roots is at level 1 under a root |
| NavigationLayout.ExecutiveChildrenLayered | hierarchical_navigation_system.py:147-193 | the executive pages follow the roots, in order, under their root |
| NavigationLayout.TechnicalChildrenLayered | hierarchical_navigation_system.py:195-252 | the technical pages follow, in order, under their root |
| NavigationLayout.OperationalChildrenLayered | hierarchical_navigation_system.py:254-300 | the operational pages follow, in order, under their root |
| NavigationLayout.DataScienceChildrenLayered | hierarchical_navigation_system.py:302-358 | the data-science pages follow, in order, under their root |
| Navigation.Ids | hierarchical_navigation_system.py:142 | the registry keys are the node ids, in order |
| Navigation.ChildIdsOf | hierarchical_navigation_system.py:363-367 | a root's children list holds exactly the ids of the pages whose parent it is |
| Navigation.ChildIdsAscending | hierarchical_navigation_system.py:363-367 | those children appear in declaration order, without repetition |
| Navigation.RootsRegistered | hierarchical_navigation_system.py:141-143 | registering the roots stores each under its id, in order |
| Navigation.ChildrenRegistered | hierarchical_navigation_system.py:363-367 | registering the pages stores each under its id and appends it to its parent's children |
| Navigation.InitialRegistered | hierarchical_navigation_system.py:84-367 | after start-up the registry lists each id once and holds every root and page |
| Navigation.ChildListedOnce | hierarchical_navigation_system.py:363-367 | every page appears exactly once in its registered parent's children list |
| Navigation.InitialSound | hierarchical_navigation_system.py:84-367 | after start-up every parent and child link points to a registered node one level up or down, and they match both ways |
| Navigation.InitialChildLinks | hierarchical_navigation_system.py:363-367 | every listed child is registered one level below its parent |
| Navigation.InitialParentLinks | hierarchical_navigation_system.py:363-367 | every registered parent lists its child, one level above it |
| Navigation.Trail | hierarchical_navigation_system.py:471-489 | the breadcrumb trail runs root-first along parent links, ends with the node itself, and is at most level + 1 long |
| Navigation.TrailLength | hierarchical_navigation_system.py:471-489 | in a registry whose links are exact the trail is exactly level + 1 long and starts at level 0 |
| Navigation.TreeBranch | hierarchical_navigation_system.py:456-469 | a branch carries its node's id and level and one child branch per listed child, in order |
| Navigation.QuickAccess | hierarchical_navigation_system.py:448-452 | quick_access holds exactly the nodes with priority 1 and level <= 1 |
| Navigation.LayeredTreeRoots | hierarchical_navigation_system.py:441-442 | the navigation tree has an entry exactly for each level-0 node |
| Navigation.LayeredRootBranch | hierarchical_navigation_system.py:441-469 | each root's branch lists exactly its pages, in declaration order |
| Navigation.LayeredTrail | hierarchical_navigation_system.py:444-489 | every node's breadcrumbs are level + 1 long and start at a root |
| Navigation.LayeredQuickAccess | hierarchical_navigation_system.py:448-452 | for the standard layout quick_access is exactly the priority-1 nodes |
| Navigation.RunLength | hierarchical_navigation_system.py:381 | a run of word (or non-space) characters stops at the first other character |
| Navigation.Runs | hierarchical_navigation_system.py:381 | the words found are non-empty runs of word characters |
| Navigation.RunsKeepChars | hierarchical_navigation_system.py:381 | the words together are exactly the word characters of the text, in order |
| Navigation.PostingsMembership | hierarchical_navigation_system.py:382-397 | adding a node's keys to an index adds the node under exactly those keys |
| Navigation.IndexMembership | hierarchical_navigation_system.py:372-397 | a node id is listed under a word, tag or audience exactly when the node has it |
| Navigation.UnionOf | hierarchical_navigation_system.py:619-636 | the union of postings holds exactly the ids listed under some given key |
| Navigation.BeforeTextByFields | hierarchical_navigation_system.py:598-625 | before text search a node is relevant exactly when it has the audience (or none is asked for), a wanted priority and, when tags are given, a requested tag |
| Navigation.TextHitsByFields | hierarchical_navigation_system.py:627-636 | text search narrows the set exactly when some search term is indexed |
| Navigation.TextHitByFields | hierarchical_navigation_system.py:627-636 | a node is a text hit exactly when its text contains one of the terms as a word |
| Navigation.RelevantByFields | hierarchical_navigation_system.py:598-638 | a node is relevant exactly when it passes each given filter, text only when some term is indexed |
| Navigation.UnknownAudience | hierarchical_navigation_system.py:603-605 | an audience absent from the index yields no relevant node |
| Navigation.Kept | hierarchical_navigation_system.py:685-686 | the filtered children are exactly the relevant ones, in order |
| Navigation.RelevantBranch | hierarchical_navigation_system.py:672-691 | a filtered branch keeps exactly its relevant children, in order, and holds only relevant nodes |
| Navigation.FilteredBranch | hierarchical_navigation_system.py:674-675 | a branch exists exactly for a relevant node |
| Navigation.FilteredWithin | hierarchical_navigation_system.py:640-670 | filtered nodes, breadcrumbs and quick_access are exactly the relevant part of the navigation, unchanged, and the filtered tree holds only relevant level-0 roots over relevant nodes |
| Navigation.ContentOf | hierarchical_navigation_system.py:491-573 | the content map has an entry exactly for each content section |
| Navigation.FilteredContent | hierarchical_navigation_system.py:575-596 | filtered content holds exactly the relevant sections, unchanged, and records the criteria |
| Navigation.CountPositive | hierarchical_navigation_system.py:711-712 | str.count of a non-empty term is positive exactly when the text contains it |
| Navigation.ScorePositive | hierarchical_navigation_system.py:709-714 | the match score is positive exactly when the text contains one of the terms |
| Navigation.Hits | hierarchical_navigation_system.py:706-721 | each hit is a registered node with its positive match score and its audience |
| Navigation.HitsComplete | hierarchical_navigation_system.py:706-721 | every node with a positive score is a hit |
| Navigation.InsertByScore | hierarchical_navigation_system.py:730 | inserting a hit adds it to the ranking without inventing others |
| Navigation.InsertDescending | hierarchical_navigation_system.py:730 | the insertion keeps the ranking in non-increasing score order |
| Navigation.SortPermutes | hierarchical_navigation_system.py:730 | the reverse sort by score is a permutation |
| Navigation.SortDescending | hierarchical_navigation_system.py:730 | the reverse sort orders hits by non-increasing score |
| Navigation.SortIsStable | hierarchical_navigation_system.py:730 | hits with equal scores keep their registry order |
| Navigation.Context | hierarchical_navigation_system.py:755 | the context is the text when at most 100 long, else its first 100 characters and "..." |
| Navigation.LeafMatches | hierarchical_navigation_system.py:746-756 | a string yields one genuine match per contained term, with its path, text and context |
| Navigation.MatchesIn | hierarchical_navigation_system.py:739-757 | every match found in nested content is genuine: its term occurs in its text |
| Navigation.ContentMatchesGenuine | hierarchical_navigation_system.py:723-727 | every content match belongs to a section and is genuine |
| Navigation.RankedHits | hierarchical_navigation_system.py:706-730 | the ranked hits are in non-increasing score order and include a node exactly when its text contains a search term |
| Navigation.SearchRanks | hierarchical_navigation_system.py:693-733 | search_content ranks by non-increasing score, includes a node exactly when its text contains a term, and total_results counts nodes plus content matches |
| NavigationSystem.AppendPostings | hierarchical_navigation_system.py:382-397 | the posting loop adds the node under each of its keys |
| NavigationSystem.HierarchicalNavigationSystem.constructor | hierarchical_navigation_system.py:68-82 | the system starts with the standard registry and its indices |
| NavigationSystem.HierarchicalNavigationSystem.RegisterRootNodes | hierarchical_navigation_system.py:141-143 | registering the roots fills the registry and the tree with them |
| NavigationSystem.HierarchicalNavigationSystem.RegisterChildNodes | hierarchical_navigation_system.py:363-367 | registering the pages attaches each to its parent and leaves the tree |
| NavigationSystem.HierarchicalNavigationSystem.GenerateNavigationStructure | hierarchical_navigation_system.py:416-454 | the navigation structure is the specified tree, nodes, breadcrumbs and quick access |
| NavigationSystem.HierarchicalNavigationSystem.FindRelevantNodes | hierarchical_navigation_system.py:598-638 | the relevant nodes are the specified set |
| NavigationSystem.HierarchicalNavigationSystem.FilterContent | hierarchical_navigation_system.py:575-596 | filter_content is the specified filtered view |
| NavigationSystem.HierarchicalNavigationSystem.SearchContent | hierarchical_navigation_system.py:693-733 | search_content is the specified ranked search |
| NavigationSystem.HierarchicalNavigationSystem.BuildSearchIndices | hierarchical_navigation_system.py:372-397 | building the indices keeps the registry and leaves the specified indices |
| NavigationSystem.BreadcrumbsFor | hierarchical_navigation_system.py:471-489 | the walk up with insert(0, ...) produces the specified trail |
| NavigationSystem.BranchFor | hierarchical_navigation_system.py:456-469 | the recursive builder produces the specified branch |
| NavigationSystem.NodesFor | hierarchical_navigation_system.py:426-442 | the node loop copies every node and builds a branch for each level-0 one |
| NavigationSystem.CrumbsFor | hierarchical_navigation_system.py:444-446 | the breadcrumb loop covers every node |
| NavigationSystem.NavigationFor | hierarchical_navigation_system.py:416-454 | the structure is assembled as specified |
| NavigationSystem.PriorityFilter | hierarchical_navigation_system.py:610-616 | the priority loop keeps exactly the nodes with a wanted priority |
| NavigationSystem.UnionFor | hierarchical_navigation_system.py:619-633 | the update loops gather the specified union of postings |
| NavigationSystem.RelevantFor | hierarchical_navigation_system.py:598-638 | the filter steps compute the specified relevant set |
| NavigationSystem.FilteredBranchFor | hierarchical_navigation_system.py:672-691 | the recursive filtered builder produces the specified branch |
| NavigationSystem.FilterNavigationFor | hierarchical_navigation_system.py:640-670 | the filtering loops produce the specified view |
| NavigationSystem.RestrictFor | hierarchical_navigation_system.py:650-662 | the copy loop keeps exactly the relevant entries |
| NavigationSystem.FilteredTreeFor | hierarchical_navigation_system.py:654-657 | the tree loop rebuilds the specified filtered tree |
| NavigationSystem.FilteredFor | hierarchical_navigation_system.py:575-596 | the content loop keeps the specified sections |
| NavigationSystem.ScoreFor | hierarchical_navigation_system.py:709-712 | the scoring loop sums the occurrence counts of the contained terms |
| NavigationSystem.HitsFor | hierarchical_navigation_system.py:706-721 | the node loop collects the specified hits in registry order |
| NavigationSystem.LeafFor | hierarchical_navigation_system.py:746-756 | the term loop appends the specified matches |
| NavigationSystem.MatchesFor | hierarchical_navigation_system.py:739-757 | search_recursive collects the specified matches |
| NavigationSystem.ItemsFor | hierarchical_navigation_system.py:743-745 | the list loop visits every item with its index path |
| NavigationSystem.EntriesFor | hierarchical_navigation_system.py:740-742 | the dict loop visits every entry with its key path |
| NavigationSystem.ContentMatchesFor | hierarchical_navigation_system.py:723-727 | the content loop extends the matches section by section |
| NavigationSystem.SearchFor | hierarchical_navigation_system.py:693-733 | the search assembles the specified result |
| NavigationSystem.IndexedRegistered | hierarchical_navigation_system.py:394-397 | every id in the audience index is a registered node |
| NavigationSystem.IndicesFor | hierarchical_navigation_system.py:372-397 | the registry loop builds the specified text, tag and audience indices |
| NavigationSystem.IndexNode | hierarchical_navigation_system.py:378-397 | one node's step adds its words, tags and audiences to the three indices |
| EnhancedOutput.StreamScore | enhanced_output_system.py:567-581 | a stream's score, its status base (100, 50 or 0) less min(10 reconnections, 50) and floored at 0, never exceeds 100 |
| EnhancedOutput.TotalScoreBound | enhanced_output_system.py:566-582 | the accumulated score is at most 100 per stream |
| EnhancedOutput.MeanScoreBounds | enhanced_output_system.py:561-584 | the stability score lies within 0..100, and is 0 for no streams |
| EnhancedOutput.ScoreFallsWithReconnections | enhanced_output_system.py:579-581 | more reconnections never raise a stream's score, and from 5 on the penalty is capped at 50 |
| EnhancedOutput.AllConnectedScoresFull | enhanced_output_system.py:566-582 | connected streams without reconnections score 100 each |
| EnhancedOutput.AllConnectedScoresHundred | enhanced_output_system.py:561-584 | a non-empty set of such streams has stability score 100 |
| EnhancedOutput.StabilityScore | enhanced_output_system.py:561-584 | the accumulating loop returns the specified mean score |
| EnhancedOutput.MentionsProbes | enhanced_output_system.py:615-625 | each category's keywords: "timeout"; "ssl" or "certificate"; "500" in the original text or "internal server error"; "404" in the original text or "not found"; "network" or "connection", all others in lower case |
| EnhancedOutput.CategorizeIsFirstMentioned | enhanced_output_system.py:613-627 | the category is the first in the order timeout, SSL, server error, not found, network whose keywords occur |
| EnhancedOutput.FirstMentionedWins | enhanced_output_system.py:613-627 | first-match-wins: "other" exactly when no category is mentioned, otherwise a mentioned category with none mentioned before it |
| EnhancedOutput.TallyCounts | enhanced_output_system.py:600-602 | the counter of each category grows by the errors of that category, and a key exists exactly when counted |
| EnhancedOutput.TallyTotal | enhanced_output_system.py:600-602 | the counters grow in total by the number of errors |
| EnhancedOutput.ErrorTypesCount | enhanced_output_system.py:594-602 | error_types counts sum to the total number of errors, count each category's errors over all streams, and list a category exactly when it occurs |
| EnhancedOutput.ReliabilityScore | enhanced_output_system.py:608 | the reliability score max(0, 100 - 10 r - 5 e) is at most 100 and 0 exactly when 10 r + 5 e >= 100 |
| EnhancedOutput.ReliabilityOf | enhanced_output_system.py:604-609 | camera_reliability has keys only for cameras of the streams |
| EnhancedOutput.ReliabilityLastWins | enhanced_output_system.py:604-609 | a camera's entry is that of its last stream |
| EnhancedOutput.TallyErrors | enhanced_output_system.py:600-602 | the counting loop produces the specified counters |
| EnhancedOutput.FailurePatterns | enhanced_output_system.py:586-611 | the stream loop produces the specified error_types and camera_reliability |
| EnhancedOutput.CountConnected | enhanced_output_system.py:218 | the connected streams are never more than all streams |
| EnhancedOutput.StabilityMetricsAsWritten | enhanced_output_system.py:194-223 | as written, the stability metrics raise exactly when there is no stream |
| EnhancedOutput.StabilityMetricsOf | enhanced_output_system.py:215-223 | as intended, the success rate lies within 0..100 and every metric is 0 without streams |
| EnhancedOutput.MetricsAsWrittenDiffers | enhanced_output_system.py:194-223 | the as-written metrics raise NameError for no streams and agree with the intended ones otherwise |
| EnhancedOutput.GenerateAlertsAsWritten | enhanced_output_system.py:269-332 | as written, alert generation raises exactly when max_concurrent_achieved is 0 |
| EnhancedOutput.CountDimensionAppend | enhanced_output_system.py:278-332 | alerts of one dimension count additively over concatenated lists |
| EnhancedOutput.AlertTiers | enhanced_output_system.py:278-332 | at most one alert per dimension and tier: FPS below 5 critical and 5..15 warning, reconnection rate above 0.5 critical and 0.2..0.5 warning, CPU above 90 critical and 75..90 warning; no info alert |
| EnhancedOutput.AlertsAsWrittenAgree | enhanced_output_system.py:295-297 | with a positive achieved count the as-written and the corrected alerts agree |
| EnhancedOutput.RecommendationShape | enhanced_output_system.py:334-430 | immediate actions appear exactly when FPS < 10 or rate > 0.3, all high priority; exactly 2 short-term (medium) and 2 long-term (low) items; no capacity or risk items |
| EnhancedOutput.CriticalAlertsHaveActions | enhanced_output_system.py:278-380 | a critical FPS alert comes with the low-FPS action and a critical stability alert with the connection-stability action |
| EnhancedOutput.AudienceFilter | enhanced_output_system.py:632-650 | raw_data is kept exactly when present, the detail level is not "low" and raw data is included; recommendations exactly when included; every other key is unchanged; audience_insights is the audience's insights when present |
| Dashboard.KeepLastIsRecentSuffix | dashboard_system.py:98-99 | the bounded cache keeps min(n, 1000) entries, the most recent ones in order |
| Dashboard.KeepLastAppend | dashboard_system.py:173-174 | appending to the bounded cache equals bounding the whole history |
| Dashboard.MetricsCache.constructor | dashboard_system.py:93-100 | the cache starts empty with capacity 1000 |
| Dashboard.MetricsCache.Append | dashboard_system.py:153-174 | store_metric keeps the last 1000 metrics in arrival order |
| Dashboard.MetricsCache.AppendBatch | dashboard_system.py:176-197 | store_metrics_batch keeps the last 1000 of the old entries followed by the batch |
| Dashboard.AssessSeverity | dashboard_system.py:342-356 | is_anomaly exactly when the deviation exceeds the interval; severity high exactly above twice the interval, low exactly when not anomalous, medium otherwise |
| Dashboard.SeverityMonotone | dashboard_system.py:342-346 | a larger deviation never gives a lower severity |
| Dashboard.DetectBaselines | dashboard_system.py:278-356 | without a stored baseline and with fewer than 10 points the result is insufficient data and nothing is stored; otherwise a new baseline (mean, interval) is stored for that metric only and the value is assessed against it |
| Dashboard.BaselineTracker.constructor | dashboard_system.py:254-257 | the tracker starts with the loaded baselines |
| Dashboard.BaselineTracker.DetectAnomalies | dashboard_system.py:333-356 | detect_anomalies returns the specified result and keeps the specified baselines |
| Dashboard.BreachesIffComparison | dashboard_system.py:1070-1083 | a breach occurs exactly when the threshold's operator names a comparison that holds |
| Dashboard.UnknownOperatorSilent | dashboard_system.py:1073-1083 | an unknown operator never breaches |
| Dashboard.LastThresholdWins | dashboard_system.py:1129-1131 | the last threshold added for a metric is the one kept |
| Dashboard.UntouchedThreshold | dashboard_system.py:1129-1131 | adding thresholds for other metrics leaves a metric's threshold as it was |
| Dashboard.AlertsAfterMetricSpec | dashboard_system.py:1047-1122 | a metric keeps every active alert, changes only its anomaly and threshold keys for the current second, records a breach with the threshold's severity and an anomaly with its severity, and changes nothing when neither occurs |
| Dashboard.ExportHistoricalData | dashboard_system.py:1141-1180 | export fails exactly for a format other than csv and json, and otherwise exports every metric in the requested format |
| Dashboard.CountSumBump | dashboard_system.py:1188-1193 | appending a value to one group raises the total count by one |
| Dashboard.GroupSound | dashboard_system.py:1188-1193 | grouping lists each metric name once, keeps every value under its name in order, has no empty group, and counts every data point once |
| Dashboard.SummaryBounds | dashboard_system.py:1207-1217 | a summary has min <= mean <= max, range = max - min >= 0, and bounds every value |
| Dashboard.SummaryMapSpec | dashboard_system.py:1207-1217 | a metric has a summary exactly when it has values, that summary is of its values, and the summary counts add up to the group counts |
| Dashboard.ReportSound | dashboard_system.py:1182-1219 | per-metric counts sum to data_points, alerts_triggered is the active alert count, anomalies_detected is 0, and each summary bounds its metric's values |
| Dashboard.RealTimeDashboard.constructor | dashboard_system.py:361-365 | the dashboard starts without thresholds or alerts |
| Dashboard.RealTimeDashboard.AddAlertThreshold | dashboard_system.py:1129-1131 | the threshold is stored under its metric name, replacing an earlier one, and alerts are unchanged |
| Dashboard.RealTimeDashboard.CheckAlertThresholds | dashboard_system.py:1068-1086 | the alerts become the specified threshold check and the thresholds are unchanged |
| Dashboard.RealTimeDashboard.AddMetric | dashboard_system.py:1034-1056 | the metric is cached in the bounded cache, the baselines updated by detection, and the alerts updated by the anomaly and threshold checks |
| Dashboard.RealTimeDashboard.GeneratePerformanceReport | dashboard_system.py:1182-1219 | the report is the specified grouping and summary with the current alert count |
| Dashboard.GroupMetrics | dashboard_system.py:1188-1193 | the grouping loop produces the specified groups |
| Dashboard.Summarize | dashboard_system.py:1207-1217 | the summary loop produces the specified summaries |

## Left out

- Network I/O: HTTP sessions, connectors, SSL contexts, status reading and the camera inventory fetch are not modelled. The camera list, response statuses and stream chunks are inputs.
- asyncio concurrency: task creation, `gather`, cancellation propagation, event-loop handlers and signal handlers are not modelled. Connections are driven by one event at a time in an arbitrary interleaving, and cancellation and stop are events.
- StreamConnection.Resume, MultiConnection.Resume and StreamHarness.ReadChunk accept a chunk only at a time later than the stream's start_time: the clock is assumed to advance between the request that opens a stream and any chunk of its response. A second frame arriving at exactly start_time, which raises ZeroDivisionError (then caught, counted as an error and followed by a reconnect), and the negative avg_fps a clock stepping backwards would give are not modelled. The condition is also required of chunks that complete no second frame, where the source does not divide.
- Clock, psutil and randomness: `time.time()`, `datetime`, CPU and memory sampling are parameters. Each chunk carries one `now` value shared by all frames in it. `random.shuffle` is modelled as an arbitrary permutation of the cameras, of which a prefix is taken.
- Float-only statistics: `statistics.mean/median/stdev/mode`, square roots, and Mbps conversions are not modelled; values are exact reals. A dashboard baseline's confidence interval (1.96 standard deviations) is passed as a parameter.
- `round(...)` is modelled where a rounded value can be tested later: the harness report's duration, FPS, rate and resource figures and each stream's FPS and duration, the achievement rate and std_dev of the direct analysis, and the success rate, average FPS, global FPS, reconnection rate and total GB of the multi-connection analysis. Values that are only reported (percentiles, uptimes, utilisation, stability scores, and the adaptive averages) stay exact.
- Common.RoundTo: rounds the exact value, with an exact half going to the even multiple. Python rounds the nearest binary float, so at an exact decimal half (a share of exactly 89.95 %, say) the source can round either way.
- Persistence and rendering: SQLite storage, the Flask and SocketIO routes, HTML/CSS/JavaScript generation, the Plotly, ReportLab and HTML report builders, logging, CSV writers, report saving and console output are not modelled.
- Other programs: `integration_system.py` (outbound webhooks and monitoring integrations), `test.py` (a GPU benchmark on foreign libraries), and the orchestration scripts `setup_and_test.py`, `run_load_test.py`, `simple_test.py` and `enhanced_direct_stream_test.py` are not part of this model.
- `_analyze_stream_patterns` in `hierarchical_navigation_system.py` calls a module it never imports and is not modelled.
- In `multi_connection_load_test.py`, `analyze_camera_performance`, `get_individual_connection_data` and `get_camera_group_data` only reshape data for printing and are not modelled.
- Navigation: the `data_path` lookups and `has_data` flags, node metadata, and the date and performance filters are not modelled. `results_by_category` is not modelled either. Word splitting uses ASCII letters, digits and `_`, not Unicode `\w`. Mapped content is modelled as the node's sections.
- Common.Lower folds only A to Z, where Python's `str.lower()` folds every cased letter, so navigation matches node text, search terms and content case-sensitively for capitals outside ASCII. `str.split()` splits on every character `str.isspace()` accepts (`Navigation.IsSpace`).
- Actionable insights: remediation steps, identifiers, free-text descriptions, risks, success criteria and the dashboard configuration are strings with no decision logic and are not modelled.
- Enhanced output: the consumer reads typed reports, which always carry the harness's keys, so the `.get` defaults for absent keys are not modelled. A present `max_concurrent_achieved` of 0 is modelled.
- Message text: recommendations, alerts and summaries are datatype values carrying the numbers they report. Their wording, alert titles and timestamps, and the CSV or JSON text of an export are not modelled; the effort total is the one string built exactly.

## Findings

| source | as written | input that shows it | evidently intended | confidence | as-written member | corrected member |
|---|---|---|---|---|---|---|
| direct_stream_test.py:91-96 | `run_direct_test` builds `CameraStreamLoadTester(..., prefix=...)`, but the constructor (camera_stream_load_test.py:55-57) takes no `prefix` parameter, so the call raises TypeError | any call of `run_direct_test` | construct the tester with the accepted arguments, run it, and enhance its report | not executed | DirectAnalysis.RunDirectTestAsWritten, DirectAnalysis.AsWrittenNeverReports | DirectAnalysis.RunDirectTest |
| enhanced_output_system.py:295-297 | `_generate_alerts` divides total reconnections by a present `max_concurrent_achieved` | a report whose `max_concurrent_achieved` is 0 (no stream ever connected) raises ZeroDivisionError | divide by max(1, achieved), as `_generate_recommendations` does at line 349 | not executed | EnhancedOutput.GenerateAlertsAsWritten, EnhancedOutput.AlertsAsWrittenAgree | EnhancedOutput.GenerateAlerts, EnhancedOutput.AlertTiers |
| multi_connection_load_test.py:176-186 | the tasks are cancelled and joined before `generate_multi_connection_report` runs, and the `finally` clause (line 293) leaves every joined connection "disconnected" or "error", so `analyze_connection_performance` (line 321) finds no "connected" connection | any run, including one where every connection streamed frames until the end | read the connection statistics before the teardown, so the summary counts the connections that were streaming | not executed | MultiConnection.MultiConnectionTester.CancelAll | MultiConnection.MultiConnectionTester.SnapshotThenCancel |
| enhanced_output_system.py:195-219 | `reconnection_counts` is bound only inside the branch taken when `individual_streams` is non-empty, yet it is read unconditionally | a report with an empty `individual_streams` list raises NameError | report zero metrics when there are no streams | not executed | EnhancedOutput.StabilityMetricsAsWritten, EnhancedOutput.MetricsAsWrittenDiffers | EnhancedOutput.StabilityMetricsOf |
| actionable_insights_system.py:95-102 | the `ActionableRecommendation` dataclass declares `target_resolution_time` and `risk_of_inaction` without defaults after `budget_estimate` and `dependencies`, which have defaults, so `@dataclass` raises TypeError when the class is created | importing the module | give the two fields defaults, or move them above the defaulted fields | not executed | ActionableInsights.GenerateInsightsAsWritten, ActionableInsights.AsWrittenNeverInsights | ActionableInsights.GenerateInsights, ActionableInsights.GenerateRecommendations |
| actionable_insights_system.py:935-947 | `_extract_current_metrics`, called from the executive summary through `_estimate_improvement_potential` (lines 383 and 906), divides total reconnections by `max_concurrent_achieved`, which defaults to 1 only when the key is absent | a report whose `max_concurrent_achieved` is 0 (no stream ever connected) raises ZeroDivisionError | divide by max(1, achieved), as the connectivity classifier does at line 336 | not executed | ActionableInsights.CurrentMetricsAsWritten, ActionableInsights.SummarizeAsWritten, ActionableInsights.SummaryAsWrittenDiffers | ActionableInsights.CurrentMetricsOf, ActionableInsights.SummaryOfReport |
