# Verified models of the benchmark and deployment tooling

This project models the parts of the repository that carry real logic and proves what they promise:
an io_uring echo probe, an open-loop load generator, a log-linear latency histogram, a three-party
phase barrier with its distributed accounting, a CPU planner, and an incremental HTTP/2 frame reader,
with a few smaller pieces of timing and budget arithmetic.  `dafny verify dfyconfig.toml` checks all
of it.

| area | modules |
|---|---|
| io_uring echo probe | `EchoModel`, `EchoInvariant`, `EchoSteps`, `EchoRuns`, `EchoServer` |
| open-loop generator | `OfferedRate`, `OfferedWorker`, `OfferedOutcomes`, `OfferedRun`, `OfferedIdentity` |
| latency histogram | `LogLinear`, `Histogram`, `OrderStatistics` |
| LAN phase barrier | `PhaseBarrier`, `BarrierSafety`, `BarrierLiveness`, `ConnectionSplit` |
| LAN accounting and percentiles | `LanStats`, `LanBooks`, `LanClient`, `LanRuns`, `LanOutcomes`, `LanPopulation`, `LanProgress`, `LanRounding`, `LanPercentile`, `LanAggregate` |
| CPU planner | `WorkerCpus`, `WorkerPlan` |
| HTTP/2 frame client | `FrameCodec`, `FramePayload`, `FrameClient`, `FrameTheorems`, `FrameRecords` |
| timing and budgets | `Pacing`, `ClockOffset`, `Ingress` |
| shared | `Basics`, `Arith`, `Tally`, `Ids` |

How the models are built:

- Concurrent code is a labelled transition system.  Everything the code does not control (which
  completion arrives, how many bytes a call moves, what the clock reads, what a request returns, who
  runs next) is part of the step's label, so a statement about all step lists is a statement about
  all runs.  The main results are stated over `Feasible` step lists from the initial state.
- Code that updates an object is a class whose methods are proved against a function of the old state;
  the transition systems and theorems use the same functions.
- What a model records is also stated without the functions that record it, on the inputs themselves:
  the jobs of a worker (`OfferedOutcomes`), the offers of a run (`OfferedIdentity`), the steps of a
  client (`LanOutcomes`, `LanPopulation`) and the frames of a peer (`FrameTheorems`, `FrameRecords`).
- A failed `CHECK`, assertion, `panic` or exception is an ordinary outcome of the model, and the
  theorems say when it can happen, usually never.
- Quantile fractions are ranks, and percentiles and durations are integers.

What turned out not to hold as one might read it, each with an input and with the exact condition:

- The controller's and the audit's percentile scans (bench/compare_http2_lan.py:34-42,
  bench/audit_http2_lan.py:14-24) agree on every histogram and percentile except percentile 0 of an
  empty histogram, where the first raises and the second returns nothing; `LanPercentile.ScansAgree`
  states this as an if-and-only-if.
- The frame client strips padding with a Python slice (tests/http2_control_comparison.py:211 and
  226).  A payload whose pad length is not smaller than the payload, which section 6.1 of RFC 9113
  calls an error, is not noticed, and when the slice's end is negative it wraps around and keeps
  bytes: `FramePayload.UnpadWraps` is such a payload and `FramePayload.UnpadMalformed` states exactly
  when nothing is kept.
- A clock estimate can be off by one nanosecond more than its reported uncertainty:
  `ClockOffset.BoundIsTight` is such an exchange, `ClockOffset.LoadWithin` and
  `ClockOffset.ControllerWithin` state exactly when the uncertainty alone is enough, and
  `ClockOffset.LoadOffset` and `ClockOffset.ControllerOffset` that one more nanosecond always is,
  for the first together with the delay between its two clock readings.
- The supervisor's guard (bench/http2_remote.py:209-211) accepts a second warmup request:
  `PhaseBarrier.GuardAcceptsTwice` states it for every state with a complete barrier and
  `PhaseBarrier.GuardExample` gives one.  That at most one is ever scheduled needs the controller's
  side and the once-only barrier lines, which is why `BarrierSafety.BarrierTheorem` is about all
  three parties.
- A run with no client processes makes the controller raise: there is nothing to aggregate and no
  measurement has set the figures it reads next (bench/compare_http2_lan.py:69 and 217).  With at
  least one client it never does without a fault (`BarrierLiveness.NoClientsRaise`,
  `BarrierLiveness.CompletionTheorem`).
- A timed-out network operation whose kind starts with `http_` would count as a rejection: one named
  `http` is such an operation (`OfferedWorker.TimeoutLooksRejected`), and
  `OfferedWorker.RejectionIsHttp` states the classification exactly.  This is about the classifier
  alone; no operation of Go's net package is named like that.
- Rounding a latency overflows int64 for the last 999 nanoseconds of the range, the largest duration
  among them, and for no other (`LanRounding.RoundUpFits`, `LanRounding.LargestOverflows`).

## Model

| member | source | states |
|---|---|---|
| `EchoModel.BlocksIsProduct` | bench/kernel_path.c:131 | The client's blocks make up `size * iterations` bytes, the total the theorem counts to |
| `EchoSteps.StepInv` | bench/kernel_path.c:134-196 | Every step of client, kernel and user loop keeps the joint invariant on bytes, buffers, in-flight operations and unread completions |
| `EchoRuns.StepDecreases` | bench/kernel_path.c:134-195 | Every step, including each consumed completion, strictly decreases one measure over bytes left, operation stages and unread completions |
| `EchoRuns.WaitingCanMove` | bench/kernel_path.c:154-155 | A loop that waits with nothing to read always has an operation in flight, and some other party can move |
| `EchoRuns.Progress` | bench/kernel_path.c:134-196 | Every reachable state that is not finished has an enabled step |
| `EchoRuns.EchoTheorem` | bench/kernel_path.c:131-196 | In every state of every run, in every mode, the output is a prefix of what was received, which is a prefix of the input, and no CHECK has failed; runs are at most `192 * size * iterations + 28` steps, and a run that cannot go on has echoed all `size * iterations` bytes and left nothing outstanding |
| `EchoRuns.MultishotOwnership` | bench/kernel_path.c:107-114 | In every reachable multishot state the 128 ids split exactly into kernel-available, unread and queued ones, no id twice, so a data completion always finds room in the queue |
| `EchoRuns.ReceiveNeverOverwrites` | bench/kernel_path.c:136-182 | No receive lands in a buffer that a send or a pinned zero-copy transfer still uses; in the single-buffer modes nothing refers to the storage while a receive can complete |
| `EchoServer.RingPush` | bench/kernel_path.c:163 | Writing slot `(head + count) % 128` appends to the queue the ring stands for |
| `EchoServer.RingPop` | bench/kernel_path.c:181 | Advancing the head drops the first queued fragment and nothing else |
| `EchoServer.Connection.Arm` | bench/kernel_path.c:136-153 | Arming on the array ring is the model's top-of-loop step |
| `EchoServer.Connection.OnReceive` | bench/kernel_path.c:156-164 | Handling a receive completion on the array ring is the model's, and reports a failed CHECK exactly when the model fails |
| `EchoServer.Connection.OnSend` | bench/kernel_path.c:165-183 | The same for send completions, partial sends, zero-copy notifications and the recycled buffer id |
| `EchoServer.Connection.OnDrain` | bench/kernel_path.c:190-194 | The same for the cancel and drain loop |
| `EchoServer.Connection.Serve` | bench/kernel_path.c:131-196 | The whole loop on the array ring terminates, passes its final CHECK and has transmitted exactly the input, for every behaviour of kernel and client |
| `EchoServer.ProvideBuffers` | bench/kernel_path.c:111-113 | The registration loop provides exactly the ids 0 to 127 |
| `LogLinear.IndexMonotone` | bench/load/main.go:33-35 | Larger samples never go to smaller buckets |
| `LogLinear.IndexInRange` | bench/load/main.go:34-40 | Every 64-bit sample stays inside the 64 groups |
| `LogLinear.UpperBound` | bench/load/main.go:59-64 | A bucket's reported bound is at least each of its samples and at most 1/128 above, exact below 256, also where the shift wraps at 2^64 |
| `Histogram.Histogram.Record` | bench/load/main.go:32-44 | Recording into lazily allocated groups adds one sample to the multiset the object stands for |
| `Histogram.Histogram.Merge` | bench/load/main.go:72-87 | Merging gives the histogram of both sample lists together, also when an object is merged into itself |
| `Histogram.Histogram.AtRank` | bench/load/main.go:46-70 | The scan returns the bound of the sample of that rank, 0 for rank 0, and reaches the panic exactly for ranks beyond the count |
| `Histogram.QuantileAccuracy` | bench/load/main.go:22-24 | For every sample list and rank the reported value is between the ranked sample and the maximum, at most 1/128 above the sample, and exact below 256 ns |
| `Histogram.ReportedUnique` | bench/load/main.go:46-70 | A rank has exactly one reported value |
| `Histogram.OrderIndependent` | bench/load/main.go:32-44 | Counts, sum and maximum depend only on the multiset of samples |
| `Histogram.SameReports` | bench/load/main.go:72-87 | Histograms of equal multisets, however split, ordered or merged, hold the same cells, count, sum and maximum and report the same value for every rank |
| `OrderStatistics.SortedRanked` | bench/load/main.go:46-70 | The counting definition of a rank is the position in sorted order |
| `OrderStatistics.BucketOfRank` | bench/load/main.go:56-58 | The bucket where cumulative counts reach a rank is the bucket of the ranked sample, for any monotone bucketing |
| `OfferedRate.OffersExact` | bench/load/offered.go:51-53 | For every accepted phase the split computation is exactly floor(duration * rate / 1e9) and no intermediate leaves int64 |
| `OfferedRate.OffsetExact` | bench/load/offered.go:55-57 | The offset is exactly floor(index * 1e9 / rate) and no intermediate leaves int64 |
| `OfferedRate.OffsetIncreases` | bench/load/offered.go:55-57 | Offsets strictly increase |
| `OfferedRate.OffsetInside` | bench/load/offered.go:51-57 | Every offer's offset lies inside its phase |
| `OfferedRate.ScheduledExact` | bench/load/offered.go:347-354 | An offer's instant is the sum of the durations before its phase and floor(index * 1e9 / rate) |
| `OfferedRate.ScheduleIncreases` | bench/load/offered.go:347-354 | Scheduled instants strictly increase over the whole multi-phase run |
| `OfferedRate.ParseSchedule` | bench/load/offered.go:28-49 | A text is accepted exactly when each of its comma-separated items is a rate and a duration in range around its first colon and there are at most 16, and then item by item |
| `OfferedRate.SplitJoin` | bench/load/offered.go:30 | Splitting at commas loses nothing |
| `OfferedRate.SplitPure` | bench/load/offered.go:30 | No item holds a comma |
| `OfferedRate.JoinSplit` | bench/load/offered.go:30 | Items joined with commas are split back into the same items |
| `OfferedRate.ItemRead` | bench/load/offered.go:31-43 | A rate, a colon and a duration are read as just that |
| `OfferedWorker.RejectionIsHttp` | bench/load/main.go:109-134 | A failure's kind starts with `http_` exactly when it is an HTTP failure or a timed-out operation whose kind does |
| `OfferedWorker.TimeoutLooksRejected` | bench/load/main.go:114-117 | Such an operation |
| `OfferedWorker.SingleCause` | bench/load/main.go:109-134 | The kind of a failure with a single cause, for each of the causes |
| `OfferedWorker.DecimalNumber` | bench/load/main.go:112 | The decimal digits of a status are read back, so each status has its own kind |
| `OfferedWorker.HandledOk` | bench/load/offered.go:261-300 | Each job is accounted once in its own phase; started == success + rejected + failed, the failure map sums to rejected + failed, service counts match, window successes, sent, connections and dials stay within bounds |
| `OfferedWorker.ErrorNeverReused` | bench/load/offered.go:267-300 | Over every job list, after a transport error a later job dials or uses a connection that some job after the error opened; the very next job dials |
| `OfferedWorker.Worker.Exchange` | bench/load/offered.go:175-259 | One exchange on the object moves the connection and the counters as `Exchanged` says, which `OfferedOutcomes.ExchangeMeans` and `OfferedOutcomes.NextMeans` pin down |
| `OfferedWorker.Worker.Handle` | bench/load/offered.go:268-298 | One job on the object is `Handled`, whose records `OfferedOutcomes.RecordsSayWhatHappened` pins down; it is accounted once in its phase, and keeps every record consistent and an idle open connection below its request limit |
| `OfferedWorker.Worker.Work` | bench/load/offered.go:261-300 | A whole job list keeps the invariants and accounts for exactly the jobs of each phase |
| `OfferedOutcomes.ExchangeMeans` | bench/load/offered.go:175-259 | An exchange dials exactly without an open connection, connects, writes and sends exactly as far as the errors on its way let it, and fails with the first of them, or with the status of a response that is not a 200 |
| `OfferedOutcomes.NextMeans` | bench/load/offered.go:222-258 | After a started job the connection is open exactly when no error was met, neither side closes and the limit is not reached, and has carried one request more |
| `OfferedOutcomes.RecordsSayWhatHappened` | bench/load/offered.go:268-298 | Over every job list and for each phase: the expired jobs are those taken up more than the lag limit late or after the end; `success` is, in order, finished - scheduled of the started jobs without an error and with a 200, `service` finished - started of the same; rejected and failed are the others by outcome; window successes are those finished before the end; failures count by kind, and starts, dials, connections, bytes and requests sent count what reached the wire |
| `OfferedRun.StepInv` | bench/load/offered.go:261-335 | Every interleaved step keeps: offers == unscheduled + dropped + queued + in flight + recorded, for each phase |
| `OfferedRun.ShardsCover` | bench/load/offered.go:306-331 | The strided walks of all shards visit every offer index exactly once |
| `OfferedRun.NothingLost` | bench/load/offered.go:373-410 | After both wait groups dropped plus recorded equals the phase's offers |
| `OfferedRun.Progress` | bench/load/offered.go:355-374 | No interleaving gets stuck before both wait groups are done |
| `OfferedRun.OfferedTheorem` | bench/load/offered.go:355-410 | Over every interleaving of schedulers, bounded or rendezvous channels and workers, no offer is ever lost, runs are bounded, and a run that cannot go on has accounted for all offers |
| `OfferedRun.FinalCheck` | bench/load/offered.go:376-410 | The final check never panics, after any run that has ended |
| `OfferedRun.CheckTotals` | bench/load/offered.go:376-410 | In any state the report loop panics exactly when some phase's dropped and recorded offers differ from its offers |
| `OfferedRun.CatchUp` | bench/load/offered.go:313-332 | The inner loop places every offer due by now, in order, at least one |
| `OfferedRun.SchedulePhase` | bench/load/offered.go:304-334 | For any clock and channel a shard's offers are placed exactly once, in order, never early, and given up as late exactly beyond the lag limit |
| `OfferedRun.ScheduleOffers` | bench/load/offered.go:302-335 | All phases of one scheduler: every offer of the shard is placed once and in order, not before the durations of the earlier phases plus floor(index * 1e9 / rate), and given up as late exactly when that is more than the limit ago; as many as the run's accounting starts from |
| `OfferedIdentity.OffersTraced` | bench/load/offered.go:302-335 | In every state of every run, offer by offer, what a scheduler has given away is what is in its channel, in its workers' hands and processed |
| `OfferedIdentity.OffersOwn` | bench/load/offered.go:306-331 | A scheduler gives away only offers of its own shard, at their exact instants, in increasing order and so none twice |
| `OfferedIdentity.ChannelTraced` | bench/load/offered.go:357-366 | Its channel holds the last offers given away, in order, and never more than its capacity |
| `OfferedIdentity.QueuedOrHeld` | bench/load/offered.go:316-325 | Every offer queued or held has the instant of one of its shard's offers: earlier durations plus floor(index * 1e9 / rate) |
| `OfferedIdentity.RecordsTraced` | bench/load/offered.go:261-300 | In every state of every run a worker's records are those of the jobs it processed |
| `PhaseBarrier.Supervisor.HandleClient` | bench/http2_remote.py:188-220 | One client event on the supervisor's dictionaries is `OnClient`; `BarrierSafety.PrintedMeansAll` says what its lines mean |
| `PhaseBarrier.Supervisor.HandleControl` | bench/http2_remote.py:207-216 | A request is refused unless its barrier is complete; otherwise one instant, 500 ms ahead, for all clients |
| `BarrierSafety.StepInv` | bench/http2_remote.py:176-251 | Every step of controller, supervisor and clients keeps the joint invariant |
| `BarrierSafety.BarrierTheorem` | bench/http2_remote.py:176-251 | In every run: the scheduled requests are a prefix of warmup, measure, each instant half a second after a request was taken; every client reads a prefix of the same at most two instants; no client warms up before all have prepared or measures before all are ready; each of the lines prepared, ready and measured is printed at most once and only when all clients have got that far; a result means every client sent its own and exited 0, and comes after the end of the measurement; with clients the controller raises only on an error line |
| `BarrierSafety.PrintedMeansAll` | bench/http2_remote.py:190-201 | Prepared, ready and measured are printed at most once each, and then every client has reached that stage |
| `BarrierSafety.StartsScheduled` | bench/http2_remote.py:212-216 | Every scheduled instant is half a second after the clock of a request taken |
| `PhaseBarrier.GuardAcceptsTwice` | bench/http2_remote.py:207-216 | By itself the supervisor schedules a second warmup whenever it is asked for one |
| `PhaseBarrier.GuardStaysOpen` | bench/http2_remote.py:188-211 | Once complete, the warmup barrier stays complete through every client event |
| `PhaseBarrier.GuardExample` | bench/http2_remote.py:207-216 | A state in which it does |
| `BarrierSafety.MeasuredAll` | bench/http2_remote.py:198-201 | When all clients have ended well the measured line has been printed |
| `BarrierSafety.BarrierHolds` | bench/http2_lan_client/main.go:342-433 | A client that has read a start line finds every other client at or past the matching report |
| `BarrierSafety.ResultMeansAll` | bench/http2_remote.py:217-220 | A printed result means every client is past its result with exit code 0 |
| `BarrierLiveness.StepDecreases` | bench/http2_remote.py:176-251 | Every step decreases one potential over client moves, unread messages, lines and requests |
| `BarrierLiveness.Progress` | bench/compare_http2_lan.py:179-216 | While the controller has no answer some step without a fault is possible |
| `BarrierLiveness.NeverRefused` | bench/http2_remote.py:207-211 | In every reachable state a pending request finds its barrier complete |
| `BarrierLiveness.LivenessTheorem` | bench/compare_http2_lan.py:179-216 | Runs with n clients have at most 35n + 2 steps and cannot get stuck before the controller has an answer |
| `BarrierLiveness.CompletionTheorem` | bench/compare_http2_lan.py:179-220 | A run without a fault never raises when there is a client, and if it cannot go on the controller has the result; without clients it raises |
| `BarrierLiveness.NoClientsRaise` | bench/compare_http2_lan.py:210-217 | A run without clients that ends with the controller raising |
| `ConnectionSplit.SplitConserves` | bench/http2_remote.py:158 | The connections of all processes add up, and differ by at most one |
| `LanRounding.Boundary` | bench/http2_lan_client/main.go:95-100 | The width loop computes the round-up function |
| `LanRounding.RoundUpError` | bench/http2_lan_client/main.go:95-100 | Rounding goes up by less than one percent, and not at all up to 1000 microseconds |
| `LanRounding.RoundUpMonotone` | bench/http2_lan_client/main.go:95-100 | Rounding is monotone |
| `LanRounding.RoundUpIdempotent` | bench/http2_lan_client/main.go:95-100 | A boundary rounds to itself |
| `LanRounding.RoundUpFits` | bench/http2_lan_client/main.go:95-100 | No intermediate leaves int64 exactly when the duration is at least 999 ns below the largest |
| `LanRounding.LargestOverflows` | bench/http2_lan_client/main.go:95 | The largest duration overflows |
| `LanPercentile.Build` | bench/http2_lan_client/main.go:92-103 | The histogram counts each boundary exactly as often as samples round to it |
| `LanPercentile.MergeAll` | bench/compare_http2_lan.py:61-66 | Merging shard histograms counts all samples, for any split |
| `LanPercentile.Quantile` | bench/compare_http2_lan.py:34-42 | Counting the rank down gives the round-up of the order statistic at (n-1)*p/100, nothing for no samples, and raises exactly in the stated cases |
| `LanPercentile.Percentile` | bench/audit_http2_lan.py:14-24 | The cumulative scan gives the same order statistic, with its own empty and missing cases |
| `LanPercentile.ScansAgree` | bench/audit_http2_lan.py:14-24 | Both scans agree if and only if it is not percentile 0 of no samples |
| `LanPercentile.MergedPercentile` | bench/compare_http2_lan.py:61-74 | From samples of any split to the reported percentile: the round-up of the sample at that position of all samples in order, at most one percent above it |
| `LanStats.StatsCell.Record` | bench/http2_lan_client/main.go:173-191 | Recording an outcome on the object is `Recorded`, whose effect over whole runs `LanOutcomes.CountersAreOutcomes` states, and says whether a row has to be logged |
| `LanStats.StatsCell.Merge` | bench/http2_lan_client/main.go:45-57 | Merging adds counters, kinds and samples |
| `LanStats.MergeList` | bench/http2_lan_client/main.go:360-363 | The merging loop over all peers |
| `LanStats.MergeAllOk` | bench/http2_lan_client/main.go:45-57 | Merged counters keep attempted == succeeded + failed, kinds summing to failed, and sample counts |
| `LanBooks.RecordInv` | bench/http2_lan_client/main.go:173-204 | Counting an outcome keeps every cell consistent and every failure either logged or waiting, once |
| `LanBooks.LogInv` | bench/http2_lan_client/main.go:198-203 | Logging a waiting row, in any order, keeps the same |
| `LanBooks.Settled` | bench/http2_lan_client/main.go:198-203 | With nothing waiting the log has, phase by phase and kind by kind, exactly the counted failures |
| `LanClient.SlotIndex` | bench/http2_lan_client/main.go:374-376 | Result slot `i * streams + slot` gives back connection and slot |
| `LanClient.SpawnedInside` | bench/http2_lan_client/main.go:369-378 | The goroutines of a load phase are exactly the result slots of the open connections |
| `LanRuns.StepInv` | bench/http2_lan_client/main.go:262-409 | Every step of setup, holding and load goroutines keeps the joint invariant |
| `LanRuns.LanTheorem` | bench/http2_lan_client/main.go:262-468 | In every interleaving no index is held by two workers or attempted twice; established == setup successes; the four phases' counters, kinds and the log add up when the result is written |
| `LanOutcomes.CountersAreOutcomes` | bench/http2_lan_client/main.go:173-191 | In every run, for each phase that is over, attempts, successes, failures, failures of each kind, and successes and failures of each latency (measurement only) number exactly the outcomes of that phase's steps |
| `LanOutcomes.ReportIsWhatWasMeasured` | bench/http2_lan_client/main.go:173-204 | A finished client's latencies are the multiset of the elapsed times of the measured requests without an error, its failure latencies those with one, its log has the row of each failure, and its established, participating and successful connections are those of the steps |
| `LanPopulation.PopulationTheorem` | bench/http2_lan_client/main.go:265-409 | In every run: after setup each claimed index was attempted exactly once or given up at the deadline, and with at least one worker all indices are claimed unless the deadline stopped one; open connections are exactly those held and those released; a load phase has a goroutine for exactly the stream slots of open connections that have not ended |
| `LanProgress.Progress` | bench/http2_lan_client/main.go:330-409 | No interleaving gets stuck before the report, even without another request |
| `LanProgress.WindDownTheorem` | bench/http2_lan_client/main.go:262-468 | After any run, a continuation without further holding or load requests is bounded, and one that cannot go on has written the report |
| `LanAggregate.PopulationAudit` | bench/audit_http2_lan.py:89-92 | After every interleaving: attempted + unattempted == requested, setup successes == established, successful <= participating <= established, alive <= established |
| `LanAggregate.RowAudit` | bench/audit_http2_lan.py:103-105 | Every row of the log names a phase, a requested connection and a stream slot in range |
| `LanAggregate.LogAudit` | bench/audit_http2_lan.py:111-116 | The log has as many rows as reported, and for every phase and kind exactly those reported |
| `LanAggregate.SumPhase` | bench/compare_http2_lan.py:47-56 | The assertions on one phase hold exactly when every shard's counters are consistent, and the sums are right |
| `LanAggregate.SumPhases` | bench/compare_http2_lan.py:47-68 | The counting assertions hold exactly when every phase of every shard is consistent and the log has as many entries as failures |
| `LanAggregate.MergeLatency` | bench/compare_http2_lan.py:62-66 | The histogram assertions hold exactly when every histogram has as many samples as counted |
| `LanAggregate.Aggregate` | bench/compare_http2_lan.py:45-79 | For the reports of any finished runs of the clients no assertion fires, the log has as many entries as failures, and the percentiles are those of all samples |
| `WorkerCpus.FirstFree` | deploy/worker_cpus.py:73 | The first unused CPU of a group, or none exactly when the group is exhausted |
| `WorkerCpus.Round` | deploy/worker_cpus.py:71-80 | One round gives every group that has a free CPU one turn, until there are enough |
| `WorkerCpus.Select` | deploy/worker_cpus.py:67-82 | Choices are lowest free CPUs in turn, a group falls more than one behind only when exhausted, and fewer than asked for means every group is exhausted |
| `WorkerPlan.AllCores` | deploy/worker_cpus.py:81-82 | When every group is exhausted, the selection has as many CPUs as there are eligible physical cores |
| `WorkerPlan.SpreadHolds` | deploy/worker_cpus.py:69-80 | With disjoint domains, a domain more than one worker behind another has no free core |
| `WorkerPlan.LowestHolds` | deploy/worker_cpus.py:72-77 | With disjoint domains, each choice is the lowest CPU of its domain that was still free |
| `WorkerPlan.EffectiveCpus` | deploy/worker_cpus.py:47-52 | The union of the interrupts' online CPUs, or an interrupt without one |
| `WorkerPlan.SortDomains` | deploy/worker_cpus.py:64 | The distinct domains ordered by lowest CPU |
| `WorkerPlan.Suggest` | deploy/worker_cpus.py:26-82 | For any sibling lists a plan holds as many eligible CPUs as asked for (allowed, online, off every interrupt core, in an interrupt's L3 domain), none a sibling of an earlier one, spread fairly, and a refusal names the size of a maximal choice; when siblings split the CPUs into cores it fails exactly when eligible cores are fewer than workers, naming how many there are; unusable inputs are refused with an error that is true of them |
| `FrameCodec.NumberRoundTrip` | tests/http2_control_comparison.py:36-41 | A number that fits its field is read back |
| `FrameCodec.EncodeNext` | tests/http2_control_comparison.py:32-33 | A written frame is read back without its reserved bit whatever follows, or refused exactly when over the budget |
| `FrameCodec.NextEncodes` | tests/http2_control_comparison.py:234-242 | A frame that was read is exactly the bytes that were written, up to the reserved bit |
| `FrameCodec.ChunkInvariance` | tests/http2_control_comparison.py:231-261 | However a byte stream is cut, the frames, the rest and the oversize error are those of the whole stream |
| `FrameCodec.FrameRoundTrip` | tests/http2_control_comparison.py:231-261 | Any frames within the budget in any pieces are observed as written, reserved bit cleared |
| `FrameCodec.OversizedStops` | tests/http2_control_comparison.py:235-237 | A frame over the budget stops the reader after everything before it |
| `FramePayload.UnpadPadded` | tests/http2_control_comparison.py:225-226 | Padding is stripped exactly |
| `FramePayload.UnpadMalformed` | tests/http2_control_comparison.py:210-211 | When padding is as long as the payload or longer, nothing is kept exactly when the slice does not wrap |
| `FramePayload.UnpadWraps` | tests/http2_control_comparison.py:210-211 | A payload of which the wrapped slice keeps a byte |
| `FramePayload.HeadersStripped` | tests/http2_control_comparison.py:209-213 | Padding and priority in any combination are stripped to the original fragment |
| `FramePayload.SettingsRoundTrip` | tests/http2_control_comparison.py:186-188 | Written settings are read back in order, the last value of a code winning |
| `FrameClient.AssembleFrame` | tests/http2_control_comparison.py:207-217 | The HEADERS and CONTINUATION branch up to the completed block is the model's, errors included |
| `FrameClient.Client.Handle` | tests/http2_control_comparison.py:180-229 | Handling one frame on the object is `Process` for every frame kind, including decoder errors, statuses and failed sends; what that records over any frame list is stated by `FrameTheorems` and `FrameRecords` |
| `FrameClient.Client.HandleBuffer` | tests/http2_control_comparison.py:234-247 | The inner loop handles exactly the complete frames of the buffer, until handling ends, and keeps the rest |
| `FrameClient.Client.Observe` | tests/http2_control_comparison.py:231-261 | For every sequence of chunks, stops, errors and end of file the object's whole state is that of handling the frames of the whole stream, and lost exactly when an answer failed or an error or the end arrived |
| `FrameTheorems.HaltsExactly` | tests/http2_control_comparison.py:180-229 | A frame ends handling exactly when it is malformed in one of three ways, completes a block the decoder rejects, or needs an answer that cannot be sent |
| `FrameTheorems.AcceptedRuns` | tests/http2_control_comparison.py:180-261 | With oracles that do not fail a frame list is handled to its end exactly when no frame of it is malformed |
| `FrameTheorems.AllHandled` | tests/http2_control_comparison.py:234-247 | All frames are handled exactly when none of them ends handling |
| `FrameTheorems.BodyRecorded` | tests/http2_control_comparison.py:223-229 | For any decoder and socket, however a sender cuts a body into DATA frames, padded or not, with anything in between, the recorded length and first 64 bytes are those of the pieces handled, and END_STREAM is noted; all pieces are handled unless some frame ends handling |
| `FrameTheorems.AllAnswered` | tests/http2_control_comparison.py:181-194 | For any decoder and socket, every SETTINGS and PING handled that asks is answered once, in order, nothing else is sent, and every frame begun is counted |
| `FrameTheorems.ResetsRecorded` | tests/http2_control_comparison.py:201-206 | Every reset code of a stream that was handled is kept in order and the first one stands, for any frame list, decoder and socket |
| `FrameTheorems.WindowsSummed` | tests/http2_control_comparison.py:199-200 | A stream's window count is the sum of the increments handled, for any frame list, decoder and socket |
| `FrameRecords.AllNoted` | tests/http2_control_comparison.py:181-198 | For any frame list, decoder and socket, the PING acknowledgements are the payloads of the acknowledged PINGs handled, the GOAWAYs those read from the GOAWAY frames, in order, and the SETTINGS acknowledgements are counted |
| `FrameRecords.SettingsStored` | tests/http2_control_comparison.py:186-188 | The settings are those of all complete entries of the SETTINGS frames begun, in order, the last value of a code standing, also when a frame ends in a short entry |
| `FrameRecords.EndedExactly` | tests/http2_control_comparison.py:207-229 | A response counts as ended exactly when a DATA frame handled, or the HEADERS frame of a completed block, carried END_STREAM, for any frame list, decoder and socket |
| `FramePayload.GoawayRead` | tests/http2_control_comparison.py:195-198 | A written GOAWAY payload is read back, with at most 256 bytes of debug data |
| `FrameTheorems.BlockReassembled` | tests/http2_control_comparison.py:207-222 | For any decoder and socket, a header block as framed by its sender, whole in its HEADERS frame or continued, padded or with a priority or not, reaches the decoder as it was sent, with any other frames in between, unless one of those ended handling first; an accepted block ends the response when it carried END_STREAM, a rejected one stays open |
| `FrameTheorems.StatusesRecorded` | tests/http2_control_comparison.py:217-220 | A stream's statuses are those of its decoded blocks in order, for every frame list and any decoder |
| `FrameTheorems.BodiesArrive` | tests/http2_control_comparison.py:180-261 | For any decoder and socket, from pieces framed by a sender, over any cut of the bytes, to the recorded body and the answers |
| `Pacing.Work` | bench/upload_client.py:171-203 | Requests of one client never overlap, and a rated client's starts respect a chain of earliest times, each a period after the last or at its response if that is later, for any delays; every start but a failed last one is a success, and the latencies are, in order, those of the successes that finished between start and end of the measurement |
| `Pacing.NeverEarly` | bench/upload_client.py:171-203 | The k-th start is no earlier than begin + offset + k * period |
| `Pacing.NoBurst` | bench/upload_client.py:201-203 | A window of length L holds at most L / period + 2 starts |
| `ClockOffset.LoadOffset` | bench/remote_load.py:179-186 | The chosen estimate has the least half round trip, and the least offset among those, and is within its uncertainty + 1 ns (and the delay between the two clock readings) of the true offset, for any split of the round trip |
| `ClockOffset.ControllerOffset` | bench/compare_http2_lan.py:157-167 | The controller's opposite-sign estimate is the first of least uncertainty, and within its uncertainty + 1 ns |
| `ClockOffset.LoadWithin` | bench/remote_load.py:184-185 | The reported uncertainty alone is enough exactly when the way back covers the reading gap and the odd nanosecond |
| `ClockOffset.ControllerWithin` | bench/compare_http2_lan.py:163-164 | For the controller it is enough exactly unless an odd round trip was all spent before the remote reading |
| `ClockOffset.BoundIsTight` | bench/remote_load.py:179-186 | An exchange whose error is the uncertainty and one nanosecond, for both estimates |
| `Ingress.BudgetsHold` | deploy/ingress.py:41-87 | For every accepted configuration 1 <= idle <= 32, active >= 1, active + proxies * idle <= budget <= workers * slots, the cap is respected, and without a cap at least half the budget is active |
| `Ingress.BudgetsAreLargest` | deploy/ingress.py:77-87 | The share of a worker is three quarters of its slots, at least one; the idle connections are the most up to 32 with 2 * proxies * idle <= budget; the active budget is the most that remains under the cap |

## Left out

- The HTTP server itself, TLS, HPACK, the Go and Python HTTP libraries, sockets, SSH, subprocesses, `/proc` and `/sys`: their results are inputs of the models.
- io_uring failure codes such as ENOBUFS: the probe aborts on them, so the kernel model has none; socket buffers are unbounded, and an end-of-file completion ends a multishot receive.
- The single completion queue of io_uring: modelled as one queue per operation read in any order, which allows every order of the single queue and more.
- 64-bit wrap-around of event counters (offers, bucket counts, samples): counters are unbounded; the histogram's sum and the top bucket's bound do wrap as in the source.
- Quantile fractions in floating point (bench/load/main.go:47) and the division to milliseconds: the rank is the input and integers are the output.
- OfferedRate.ParseSchedule: what Go's number and duration parsers make of a text is an input.
- The closed-loop `worker` of bench/load/main.go: it measures with one request at a time and keeps plain counters; the open-loop results do not depend on it.  Option parsing is modelled only where those results need a limit.
- FrameClient.Client.Observe: times are not modelled; the caller's condition and its deadline may stop it after any chunk.
- Periodic sample, heartbeat, hello and launch lines of the supervisor, and its deadline as a time: any step may be preceded by an abort instead.
- Latency of a goroutine between counting a measured success and marking its connection (bench/http2_lan_client/main.go:384-389): one step in the model, as both are only read after all goroutines have ended.
- Endings of holding and load goroutines by a closed channel or a deadline: an ending is allowed at any time, and the progress results use it only where the source's condition holds.
- WorkerPlan.Suggest: the interface name, RPS masks and the reading of the IRQ list are inputs.
- `cpu_list` parsing, the NGINX and nftables texts, plots, summaries and the remaining audit scripts: parsers of kernel lists, text templates for other programs and straight-line checks of recorded figures, on which nothing modelled here depends.
