# StrataBench: a verified model

StrataBench runs storage benchmarks: a native io_uring block engine, a coordinator that
spreads a run over clients and targets, and a Kubernetes operator that runs a Benchmark
resource as a Job. This project models the parts of it that are real state machines or
arithmetic, in Dafny, and proves what they keep over every run, for every input and under
every interleaving the code allows. `dafny verify dfyconfig.toml` checks everything.

- **Operator** (`OperatorModel`, `OperatorSafety`, `OperatorConvergence`, `OperatorRequests`,
  `OperatorResults`, `OperatorMisreports`, `OperatorDigest`, `OperatorReports`,
  `OperatorScenarios`, `Reconciler`): one Benchmark resource, its Job, ConfigMap and status file. A reconcile is a sequence of API calls; users,
  Jobs and the garbage collector may act between any two of them. The methods of the class
  `Reconciler` are proved to compute what the step machine computes, and the safety and
  convergence results are about the machine.
- **Native engine** (`Offsets`, `IoUring`, `Latency`, `EngineRunState`, `EngineTotals`,
  `LiveProgress`, `LineCodec`): offset selection in wrapping 64-bit arithmetic, the slot table of
  a ring worker against a non-deterministic kernel, the shared counters as atomic steps of many
  threads and what they have to do with the workers' completions, the latency buffer and summary,
  and the progress file from the worker to the Go callback.
- **Distributed run** (`Topology`, `Schema`, `Monoids`, `Averages`, `Intervals`, `Aggregate`,
  `Extremes`, `MergedBuckets`, `MergedRuns`, `FanIn`, `RunProgress`, `AsyncRun`, `FioLogs`): schedules, merging, fan-in in any order of arrival, the
  racy progress registry, and the life of a background run as its pollers see it.
- **Smaller cores** (`Baseline`, `Overrides`, `Decimals`, `NodeList`, `LabConfig`): regression
  alerts, parameter aliases, node lists.
- **Shared**: `Options`, `Sequences`, `Strings`, `Arithmetic`.

What was found out about the code on the way is stated as theorems too:

- A crash between Job creation and the spec-hash stamp can report one spec's result as
  another's (`CrashMisattributes`, and `RevertMisattributes` when the user goes back to the stored
  spec); `CrashSafeIff` says which crashes misattribute at once, `CrashMisleadsIff` and
  `CrashOfRunMisleadsIff` which ones can ever be followed by a wrong report, and `MisreportIff`
  which later lookup it takes.
- An edit after a completed run is acted on if and only if it changes the hash
  (`EditAnsweredIff`). With plain names and a digest without collisions that is: if and only if
  profile, target, intent, clients, targets, mock or skipValidate changed
  (`EditedFieldsAnsweredIff`). Edits that do not change the hash are those of four undigested
  fields, but also edits that join two clients with a space or move text across a separator
  (`UndigestedFields`, `JoinedClientsCollide`, `ShiftedTextCollides`).
- The run id of a completed run is reported if and only if the status file was there at one
  particular call (`RunIdReportedIff`). It is the Job's own if and only if the file held nothing
  or that Job's result at that call (`OwnResultIff`); a late file of an old Job is reported as the
  new one's (`LateResultMisreported`).
- A retry token that was applied is used and marked again by the next edit of the spec
  (`EditReusesAppliedToken`); `TokenUsedTwice` is a run on which it happens.
- The sequential walk never reaches the data set's last block (`SequentialWalkSafe`); a block
  size of 2^64 bytes or more makes the engine divide by zero (`OversizedBlockDivides`).
- The progress writer stops at the first second that is empty when it loads it (`LastPollDelivers`
  says when that loses something).
- Mean latency and CPU of a grouped run are averages of averages (`GroupedAverageAgreesIff` says
  when that makes no difference).
- The event stream of a failed run ends if and only if some live lookup fell between the end of
  the run and the failed entry and the store was not read before it held the failure
  (`FailedStreamEndsIff`); that of a refused run never ends (`RefusedStreamNeverEnds`).
- The interval counter of a live run may end at any number from 1 to the number of callbacks
  (`EveryCountReachable`).
- An override given under a name that is rewritten can be read back under that name only if it had
  the value before, with one exception (`OverrideTakesEffectIff`); an override of queue_depth
  leaves the profile's own queue_depth as it was (`QueueDepthOverrideIgnored`); other spellings may
  stay stale (`OtherSpellingFollowsIff`); and the result may depend on map order
  (`OrderIrrelevantIff`).
- A node list round-trips exactly under `RoundTripIff`; that condition is weaker than "trimmed
  hosts", because a trailing space survives.

## Model

| member | source | states |
|---|---|---|
| OperatorModel.Next | internal/operator/reconciler.go:87-215 | every call brings a reconcile closer to its end: it makes at most nine calls |
| OperatorSafety.OperatorKeeps | internal/operator/reconciler.go:87-307 | each operator call keeps the invariant: Job and status attributed to the stored hash, mounted ConfigMap, tokens consumed one to one |
| OperatorSafety.OutsideKeeps | internal/operator/reconciler.go:87-215 | edits, Job outcomes, vanishing Jobs and late status files keep it, between any two calls |
| OperatorSafety.EveryRunAttributes | internal/operator/reconciler.go:87-233 | on every crash-free run an existing Job has the stored hash or the one its creator is about to store; a reported outcome is a real outcome of a Job with the stored hash; a live Job mounts its own spec; applied tokens are, in order, those under which Jobs were created |
| OperatorRequests.RequestsUseNewTokens | internal/operator/reconciler.go:133-233 | on every crash-free run a creation uses a token that differs from the last one used exactly when its reconcile saw a retry request; any other one uses none or the last again |
| OperatorRequests.RequestsConsumedOnce | internal/operator/reconciler.go:133-233 | so two requested creations with one token have another token's between them |
| OperatorRequests.EditReusesAppliedToken | internal/operator/reconciler.go:186-233 | from any idle state, an old Job still there or not: with the hash changed and the applied token standing, two unblocked reconciles create one Job that uses and marks that token again |
| OperatorRequests.TokenUsedTwice | internal/operator/reconciler.go:186-233 | a run from the initial state on which a token is marked twice, the second time without a request |
| OperatorSafety.OutcomeWrittenOnlyForReadHash | internal/operator/reconciler.go:143-168 | Completed or Failed is written from a Job only when that Job's hash equals the hash the reconcile read, already stored |
| OperatorSafety.ReconcileKeeps | internal/operator/reconciler.go:74-131 | a whole reconcile keeps the invariant whatever happens during it |
| OperatorSafety.ReconcileStampsWhatItRead | internal/operator/reconciler.go:133-233 | a reconcile leaves annotations and creations alone, or creates exactly one Job from the spec and token read at its start and stamps those: edits that arrive meanwhile stay outstanding |
| OperatorSafety.CrashSafeIff | internal/operator/reconciler.go:186-215 | a crash breaks attribution exactly at the listed points, and loses a retry token exactly between creation and the applied mark |
| OperatorSafety.CrashMisattributes | internal/operator/reconciler.go:199-214 | a crash before the first stamp and an edit make one spec's Job count as the other's completed run |
| OperatorMisreports.MisreportIff | internal/operator/reconciler.go:87-168 | from any idle state a wrong outcome is or is about to be reported exactly if some reconcile looked up a finished Job of another hash while none or the read hash was stored, no retry was asked for and the phase was not Completed |
| OperatorMisreports.CrashMisleadsIff | internal/operator/reconciler.go:186-215 | a crash can be followed by a wrong report exactly if it fell between Job creation and the stamp of a hash not stored yet, and some valid spec of another hash passes for unchanged |
| OperatorMisreports.CrashOfRunMisleadsIff | internal/operator/reconciler.go:186-215 | on a run, with a hash stored, every such crash can; with none stored, exactly if some valid spec has another hash |
| OperatorMisreports.RevertMisattributes | internal/operator/reconciler.go:199-214 | a crash before the second stamp and a way back to the first spec report the second spec's Job as the first's completed run |
| OperatorConvergence.TwoUnblockedReconcilesConverge | internal/operator/reconcile_logic.go:22-34 | after the last edit two reconciles without a lingering deleted Job, among any number, reach stored hash = current hash, no retry pending and a live Job or Completed; an outstanding request is answered by exactly one Job |
| OperatorConvergence.RoundsGrant | internal/operator/reconciler.go:106-131 | the ranking argument: every unblocked reconcile lowers the number of Job operations left, and no other one raises it |
| OperatorConvergence.SettledIsFixpoint | internal/operator/reconciler.go:106-168 | a converged resource settles after one quiet reconcile, and then reconciling changes nothing |
| OperatorConvergence.CompletedIsFinal | internal/operator/reconcile_logic.go:24-26 | without an edit a completed resource never changes again |
| OperatorResults.ReadingDecides | internal/operator/reconciler.go:143-168 | without an edit the completed status is, for ever, what the file held at the one call that reads it, for the Job observed before |
| OperatorResults.RunIdReportedIff | internal/operator/reconciler.go:143-153 | if nothing else is asked for, the completed status reports the file's run id, for as long as nobody edits, if and only if the file was there at the call that reads it |
| OperatorResults.ResultIsTheJobsOwn | internal/operator/reconciler.go:143-184 | while every success writes its file and no result appears late, a completed status reports the result written by the very Job it speaks of, or none |
| OperatorResults.OwnResultIff | internal/operator/reconciler.go:143-184 | a completed status reports the observed Job's own result, or none, exactly if at the call that reads it the file was absent or that Job's |
| OperatorResults.LateResultMisreported | internal/operator/reconciler.go:143-184 | a run on which a late result of the first Job is reported as the second one's run |
| OperatorConvergence.EditAnsweredIff | internal/operator/job.go:45-50 | after a completed run and a valid edit, with no later edit, exactly one Job is created if and only if the hash changed, and otherwise none |
| OperatorConvergence.SameHashEditIgnored | internal/operator/job.go:45-50 | at every moment of every run a valid edit with the same hash after a completed run changes nothing but the spec |
| OperatorDigest.DigestedTextIff | internal/operator/job.go:45-50 | for specs without separators in their texts and items the digested texts are equal exactly if profile, target, intent, clients, targets, mock and skipValidate are |
| OperatorDigest.EditedFieldsAnsweredIff | internal/operator/job.go:45-50 | then, with a digest that keeps the two texts apart, an edit after a completed run creates one Job exactly if one of those seven fields changed, and otherwise none |
| OperatorConvergence.UndigestedFields | internal/operator/job.go:45-50 | topology, checkBaseline, checkHardware and useOllama are not digested |
| OperatorConvergence.JoinedClientsCollide | internal/operator/job.go:46-48 | two clients digest like one with a space between |
| OperatorConvergence.ShiftedTextCollides | internal/operator/job.go:46-48 | text moved across the separator of profile and target digests alike |
| OperatorReports.UsableIff | internal/operator/reconciler.go:306-348 | a spec is accepted exactly if it has a profile or an intent, and a target, a target list or an intent |
| OperatorReports.RefusalReported | internal/operator/reconciler.go:87-93 | one reconcile of an unusable spec reports it as failed with the reason and touches nothing else |
| OperatorReports.CompletedLeftAlone | internal/operator/reconcile_logic.go:22-34 | one reconcile of a completed run that neither changed nor is to be repeated changes nothing |
| OperatorReports.TeardownStarts | internal/operator/reconciler.go:170-184 | with a Job and a changed spec or a request, the status file is removed, the Job deleted and the right reason reported before anything is created |
| OperatorReports.WaitsForCleanup | internal/operator/reconciler.go:186-205 | while that Job exists none is created and the wait is reported |
| OperatorReports.JobCreated | internal/operator/reconciler.go:186-233 | without a Job one is created from the spec that was read, mounted, stamped, reported, and logged under its token |
| OperatorReports.JobObserved | internal/operator/reconciler.go:143-168 | a Job's success is reported with the run id of the status file, its failure as failed, and its running once, under the spec's hash |
| OperatorReconciler.Reconciler.ReconcileOne | internal/operator/reconciler.go:87-131 | ends in the cluster the step machine reaches from the same reading, under the same outside events |
| OperatorReconciler.Reconciler.ObserveJob | internal/operator/reconciler.go:143-168 | success, failure, running: the machine's outcome from the observing state |
| OperatorReconciler.Reconciler.TeardownRun | internal/operator/reconciler.go:170-184 | removes the status file and starts deletion of the Job, as the machine's two steps |
| OperatorReconciler.Reconciler.EnsureJob | internal/operator/reconciler.go:186-215 | ConfigMap, Job, retry mark, stamp and status, or the wait for cleanup, as the machine's steps |
| OperatorReconciler.Reconciler.MarkRetryApplied | internal/operator/reconciler.go:217-233 | marks the token read at the start, or nothing for the empty token |
| OperatorReconciler.Reconciler.UpdateStatus | internal/operator/reconciler.go:293-304 | replaces the status, then outside events happen |
| OperatorReconciler.Reconciler.PatchStatus | internal/operator/reconciler.go:273-304 | with a hash: stamps, then writes the status, with outside events after each |
| OperatorReconciler.Reconciler.ReconcileAll | internal/operator/reconciler.go:74-85 | lists and reconciles: the machine's whole reconcile |
| OperatorReconciler.Reconciler.Loop | internal/operator/reconciler.go:57-72 | any number of rounds: the runs the convergence theorem speaks about |
| Offsets.AlignUpWraps | crates/stratabench-engine/src/block/common.rs:215-217 | the least page multiple that holds n, or 0 where the sum wraps |
| Offsets.ParsedBytesIs | crates/stratabench-engine/src/config.rs:99-100 | a parsed size is the byte count, moved into the range from 512 to 2^64 - 1 |
| Offsets.AcceptedGeometry | crates/stratabench-engine/src/block/common.rs:96-109 | an accepted geometry has whole pages and whole blocks and loses less than a block; the divisor is zero exactly for a block size within a page of 2^64 |
| Offsets.OversizedBlockDivides | crates/stratabench-engine/src/block/common.rs:103-104 | every block size of 2^64 bytes or more, such as 1e30, saturates and divides by zero |
| Offsets.RandomOffset | crates/stratabench-engine/src/block/common.rs:167-170 | the drawn block's own boundary, not beyond the last block |
| Offsets.RandomDrawsBlocks | crates/stratabench-engine/src/block/common.rs:167-170 | the numbers that may be drawn are those of the data set's blocks, the last included |
| Offsets.RandomIff | crates/stratabench-engine/src/block/common.rs:165-166 | a pattern is random exactly if it has the letters rand in a row, in either case |
| Offsets.PickOffset | crates/stratabench-engine/src/block/common.rs:154-176 | the block lies inside the data set on a page boundary and the cursor stays paged, after wrap-around too |
| Offsets.SequentialWalkSafe | crates/stratabench-engine/src/block/common.rs:171-175 | every sequential offset of every thread is in bounds for ever and never the last block |
| Offsets.CursorClosedForm | crates/stratabench-engine/src/block/common.rs:171-175 | before wrap the k-th cursor is bs (tid + k (tid + 1)) |
| Offsets.CollisionIff | crates/stratabench-engine/src/block/common.rs:171-175 | operations k and k' of a thread collide exactly when n divides (k - k')(tid + 1) |
| Offsets.ThreadZeroCovers | crates/stratabench-engine/src/block/common.rs:171-175 | thread 0 hits each of the n blocks exactly once in any n consecutive operations |
| IoUring.WriteShare | crates/stratabench-engine/src/block/common.rs:142-152 | of the hundred draws a write pattern writes at all, a read pattern at none, any other at what the percentage of reads leaves |
| IoUring.RingHasHeadroom | crates/stratabench-engine/src/block/io_uring.rs:22-23 | the queue depth is at least one, the ring twice that and at least eight, so it has room for every slot |
| IoUring.SlotsPartition | crates/stratabench-engine/src/block/io_uring.rs:52-121 | submission queue, kernel and completion queue partition the occupied slots, so no buffer in flight is reissued |
| IoUring.Worker.constructor | crates/stratabench-engine/src/block/io_uring.rs:52-56 | the worker starts with empty slots, nothing pending and its thread's own cursor |
| IoUring.Worker.FirstFree | crates/stratabench-engine/src/block/io_uring.rs:60-63 | the first free slot, or none if all are taken |
| IoUring.Worker.FillSlots | crates/stratabench-engine/src/block/io_uring.rs:59-91 | fills until full or time is up and for no other reason; every iteration pushes |
| IoUring.Worker.FillOne | crates/stratabench-engine/src/block/io_uring.rs:60-90 | a free slot is always found and one operation is always pushed |
| IoUring.Worker.NextRequest | crates/stratabench-engine/src/block/io_uring.rs:64-66 | the next request has a kind the pattern allows and the block it is at: the thread's own walk, or the drawn block |
| IoUring.Worker.PushAt | crates/stratabench-engine/src/block/io_uring.rs:64-90 | the push never fails and takes a slot nothing in flight refers to |
| IoUring.Worker.Handle | crates/stratabench-engine/src/block/io_uring.rs:104-115 | a completion frees its own slot, is recorded or dropped once, and the saturating subtraction does not saturate |
| IoUring.Worker.Reap | crates/stratabench-engine/src/block/io_uring.rs:101-116 | reaps each visible completion once: pending falls by as many as the log grows |
| IoUring.Worker.SubmitAndReap | crates/stratabench-engine/src/block/io_uring.rs:93-121 | unless a submit fails, an operation is reaped or a completion has become visible |
| IoUring.Worker.Turn | crates/stratabench-engine/src/block/io_uring.rs:58-121 | the outer loop's body keeps pending = occupied slots <= qd; once time is up pending only falls, and unless a submit fails the work outstanding does |
| IoUring.Worker.Work | crates/stratabench-engine/src/block/io_uring.rs:58-121 | at exit the rings are empty and pushes = recorded + failed, operation by operation; exactly the successful completions were recorded, in order, each once and as the kind it was pushed with; the k-th push was the k-th step of the thread's walk; once time is up it stops within 2 pending + 1 turns if no submit fails |
| Latency.BufferBounded | crates/stratabench-engine/src/block/common.rs:52-59 | the buffer never exceeds 100000, the overwrite index is in bounds, it holds only recorded values and always the latest |
| Latency.SlotsHoldLast | crates/stratabench-engine/src/block/common.rs:52-59 | each slot of the buffer holds the last sample that went into it: its own while the buffer grows, then the one its counter reading points to |
| Latency.SummaryOrdered | crates/stratabench-engine/src/block/common.rs:187-213 | min <= p50 <= p95 <= p99 <= max and min <= mean <= max, the empty buffer's estimate included |
| Latency.SummaryRanks | crates/stratabench-engine/src/block/common.rs:200-212 | p50, p95 and p99 are the recorded samples at the rank (n - 1) p rounded half up, min and max the extreme samples, the mean their mean |
| Latency.EmptySummary | crates/stratabench-engine/src/block/common.rs:187-199 | without samples everything is a fixed multiple of the time per operation |
| EngineRunState.InterleavingsConserve | crates/stratabench-engine/src/block/common.rs:41-60 | under any interleaving reads + writes <= total and bucket sum <= total; after the join reads + writes = total and buckets + late = total |
| EngineRunState.IntervalsListBuckets | crates/stratabench-engine/src/block/common.rs:69-82 | the intervals are exactly the non-empty buckets under increasing numbers |
| EngineRunState.IntervalsConserve | crates/stratabench-engine/src/block/common.rs:69-82 | the interval counts add up to the bucket sum |
| EngineRunState.SampleRates | crates/stratabench-engine/src/block/common.rs:75-81 | a sample's rate is its count and its throughput counts mebibytes |
| EngineRunState.RunState.constructor | crates/stratabench-engine/src/block/common.rs:27-39 | one bucket per second, at least one, all counters zero |
| EngineRunState.RunState.Record | crates/stratabench-engine/src/block/common.rs:41-60 | an uninterrupted call is the machine's four atomic steps: one more in the total, in its kind and in its second, and the sample in the buffer |
| EngineRunState.RunState.Finish | crates/stratabench-engine/src/block/common.rs:62-93 | rates over elapsed time, the intervals of the buckets and the latency summary |
| EngineTotals.ReportedTotals | crates/stratabench-engine/src/block/io_uring.rs:58-131 | however the workers' calls of record interleave: after the join the reported total, reads and writes are the successful completions of all workers, in all and by the kind pushed, which is pushes less failures; the intervals hold all but the late ones |
| LiveProgress.Tailer.Drain | internal/engine/native_progress.go:34-59 | the callback gets the decodable samples beyond the mark, in order, and the mark follows |
| LiveProgress.PrefixDecodes | internal/engine/native_progress.go:40-49 | any prefix of the file, a cut-off last line included, decodes to exactly the samples it holds completely |
| LiveProgress.NewerOfNumbered | internal/engine/native_progress.go:50-57 | of consecutively numbered samples exactly those after the mark are delivered |
| LiveProgress.ProgressWriter.FlushProgress | crates/stratabench-engine/src/progress.rs:30-52 | while workers keep counting, appends the samples from the mark up to the first bucket that is empty when it is loaded |
| LiveProgress.StreamedOnceInOrder | internal/engine/native_progress.go:15-59 | for any interleaving of workers, flushes, partial writes and polls the callback gets 1, 2, 3, ... once each; they lead the final report and no streamed rate exceeds the reported one |
| LiveProgress.BucketsCountRecords | crates/stratabench-engine/src/block/common.rs:48-51 | whatever the writer and the tailer do, each bucket holds what was counted in its second |
| LiveProgress.LoadEndsFlushIff | crates/stratabench-engine/src/progress.rs:35-39 | with all lines in the file a load ends the flush exactly when the next bucket is empty at that moment or there is none |
| LiveProgress.FlushRuns | crates/stratabench-engine/src/progress.rs:30-52 | the loads of an uninterrupted flush append what the writer's method appends, and end it |
| LiveProgress.LastPollDelivers | crates/stratabench-engine/src/progress.rs:20-52 | after a last flush whose loads interleave with workers and polls, whatever is counted later, the last poll has delivered exactly the seconds before the one that flush found empty: the whole report if and only if nothing is ever counted from there on |
| LineCodec.LawfulCodecExists | internal/engine/native_progress.go:46-49 | a line format with the laws that the stream theorems assume exists |
| Topology.NormalizeList | internal/topology/topology.go:125-137 | computes the trimmed, blank-free list of first occurrences |
| Topology.NormalizedIsClean | internal/topology/topology.go:125-137 | that list has no repetition and holds exactly the non-blank trimmed items |
| Topology.NormalizeTwice | internal/topology/topology.go:125-137 | normalizing again changes nothing |
| Topology.MergedTargetsClean | internal/topology/topology.go:148-156 | merged targets are clean, empty exactly when the list (or, without a list, the single target) is blank, and non-empty whenever a schedule was built |
| Topology.Build | internal/topology/topology.go:30-109 | the schedule or error of the effective mode |
| Topology.AutoChooses | internal/topology/topology.go:111-122 | auto mode, named or empty: at most one client measures every target once, several clients share one target, several take turns on several with balanced loads; without a target it fails |
| Topology.OneTargetModes | internal/topology/topology.go:43-68 | what single and pool schedule, and exactly when they refuse and why |
| Topology.ManyTargetModes | internal/topology/topology.go:70-104 | what sweep, shard and matrix schedule, and exactly when they refuse and why |
| Topology.OtherNamesRefused | internal/topology/topology.go:106-108 | every other name is refused by name, once there is a target |
| Topology.NormalizedInOrder | internal/topology/topology.go:125-137 | items stand in the order in which they first occur |
| Topology.MatrixInOrder | internal/topology/topology.go:94-104 | the matrix goes client by client and target by target |
| Topology.AutoSucceedsIff | internal/topology/topology.go:111-122 | auto mode succeeds exactly when some target is not blank |
| Topology.ScheduleHasNoDuplicates | internal/topology/topology.go:43-104 | no schedule is empty or repeats an assignment, and each pairs a listed target with a listed client or the coordinator |
| Topology.MatrixIsProduct | internal/topology/topology.go:94-104 | matrix is exactly the cartesian product |
| Topology.ShardLoad | internal/topology/topology.go:84-92 | a target's load after k clients |
| Topology.ShardBalanced | internal/topology/topology.go:84-92 | shard uses each client once, loads differ by at most one, and no target is left out when clients suffice |
| Intervals.MergeIntervals | internal/aggregate/intervals.go:10-82 | computes the merged buckets |
| Intervals.MergeBucket | internal/aggregate/intervals.go:30-79 | computes one merged bucket |
| Intervals.MergePercentiles | internal/aggregate/intervals.go:69-71 | pointwise maximum whatever the map order |
| Intervals.MergedLength | internal/aggregate/intervals.go:18-23 | as many buckets as the longest node has |
| Intervals.LongestIsMax | internal/aggregate/intervals.go:18-23 | the longest length is attained and bounds all |
| Intervals.MergedBucketTotals | internal/aggregate/intervals.go:29-80 | bucket i is, field by field, the total of bucket i over the nodes: sums, pointwise percentile maxima, extreme latencies |
| Intervals.MergeConserves | internal/aggregate/intervals.go:10-82 | the total over merged buckets is the total over all nodes and buckets |
| Intervals.MergeGrouped | internal/aggregate/intervals.go:10-82 | merging in groups and then together gives the same buckets |
| Intervals.MergePermuted | internal/aggregate/intervals.go:10-82 | so does merging the nodes in another order |
| MergedBuckets.EveryFieldMerges | internal/aggregate/intervals.go:25-80 | every field of a merged bucket: rates and timeouts are sums, latencies and percentiles the largest, the minimum the smallest positive, the average the mean of the positive ones, number and times the first usable |
| MergedBuckets.OneNodePassedOn | internal/aggregate/intervals.go:14-16 | a single node's buckets are passed on |
| Aggregate.AggregateResults | internal/aggregate/aggregate.go:10-48 | computes the aggregate |
| Aggregate.MergeTotals | internal/aggregate/aggregate.go:50-63 | computes the summed volumes |
| Aggregate.AggregateTotals | internal/aggregate/aggregate.go:10-63 | each summed, maximal or positive-minimal field of the aggregate is the total of that field, for any number of runs |
| Aggregate.GroupingHomomorphism | internal/aggregate/aggregate.go:10-63 | aggregating per group and then the groups equals aggregating directly in every such field, for any partition and order |
| Aggregate.GroupedAverageAgreesIff | internal/aggregate/aggregate.go:42-44 | for any partition into groups mean latency and CPU agree with the direct averages exactly when the groups balance: the sum of (m size - n) average is zero for m groups of n runs |
| Aggregate.PairAverageAgreesIff | internal/aggregate/aggregate.go:42-44 | for two groups exactly when they are equally large or have equal averages |
| Aggregate.EqualGroupsAgree | internal/aggregate/aggregate.go:42-44 | equally large groups always agree |
| Aggregate.GroupingIntervals | internal/aggregate/aggregate.go:45 | the aggregate of aggregated groups has the interval buckets of the direct aggregate, for any partition and order |
| Aggregate.IntervalsKeepOrderFree | internal/aggregate/aggregate.go:45 | nor does the order of the runs matter to them |
| MergedRuns.EveryFieldAggregates | internal/aggregate/aggregate.go:10-63 | every field of the aggregate: rates and volumes are sums, tail latencies the largest, the minimum the smallest positive, mean latency and CPU the averages, the rest is dropped |
| MergedRuns.FewRunsPassedOn | internal/aggregate/aggregate.go:11-16 | one run is passed on, none gives the empty result |
| FanIn.Drain | internal/orchestrator/run.go:148-190 | every success lands once in the result set and once in its target's bucket, every failure once in the errors |
| FanIn.AggregateTargets | internal/orchestrator/run.go:195-198 | each measured target once, with the aggregate of its own results, in any map order |
| FanIn.CollectRun | internal/orchestrator/run.go:148-235 | fails exactly when nothing succeeded, with all errors; otherwise total, targets, warnings, the first raw output and the client runs, each under its own host and target |
| FanIn.ChosenReported | internal/orchestrator/run.go:154-188 | the j-th client run is the j-th listed success on its own client, or the coordinator, and its own target; the j-th error names its own assignment |
| FanIn.FirstRaw | internal/orchestrator/run.go:164-166 | the raw output is that of the first success that has one |
| FanIn.ClientRunCount | internal/orchestrator/run.go:169-186 | one client run for each success with several assignments or named clients, none for a lone local one |
| FanIn.BucketsPartition | internal/orchestrator/run.go:152-168 | the buckets partition the successes |
| FanIn.TargetsAddUp | internal/orchestrator/run.go:195-200 | the aggregate of the per-target results is the reported total in every summed, maximal and minimal field |
| FanIn.TargetIntervalsAddUp | internal/orchestrator/run.go:195-200 | the per-target intervals merge to the reported ones, bucket by bucket |
| FanIn.ArrivalOrderIrrelevant | internal/orchestrator/run.go:154-190 | totals, per-target totals, client results and errors do not depend on the order of arrival |
| FanIn.ArrivalKeepsIntervals | internal/orchestrator/run.go:154-190 | nor do the intervals, in all and per target |
| RunProgress.Registry.Set | internal/runstate/progress.go:26-29 | replaces one run's entry and no other |
| RunProgress.Registry.Get | internal/runstate/progress.go:31-37 | the entry, if there is one |
| RunProgress.Registry.Clear | internal/runstate/progress.go:39-41 | removes one run's entry and no other |
| RunProgress.Registry.IncrementDone | internal/runstate/progress.go:43-52 | uninterrupted, counts one more completion of a present entry |
| RunProgress.Registry.RecordInterval | internal/runstate/progress.go:55-66 | uninterrupted, stores the sample and counts it in a present entry |
| RunProgress.ShowsOnItsWay | internal/orchestrator/run.go:134-210 | the registry entries of a run from its start to its end |
| RunProgress.CompletionsAreExact | internal/orchestrator/run.go:134-210 | under any interleaving of loads and stores completed <= total, completed = drained assignments, and all of them after the drain |
| RunProgress.IntervalsBounded | internal/runstate/progress.go:55-66 | until the entry is replaced for aggregation 1 <= intervals <= finished callbacks as soon as one finished; after the wait none is unfinished |
| RunProgress.CompletedMonotone | internal/runstate/progress.go:43-66 | a visible completion count never goes back |
| RunProgress.EveryCountReachable | internal/runstate/progress.go:55-66 | the bounds are tight: with two callers every count from 1 to n is the outcome of some run of n callbacks |
| AsyncRun.WriteStreamEvent | internal/api/stream.go:48-89 | what one poll sends, and when it ends the stream |
| AsyncRun.HandleRunStream | internal/api/stream.go:26-45 | the sent events of any sequence of polls |
| AsyncRun.EachPollSends | internal/api/stream.go:48-89 | each poll before the end sends its own events: a new highest interval and the progress, or the stored record, or the error; and the stream ends with the first that finds neither entry nor unfinished record |
| AsyncRun.StreamedNumbersIncrease | internal/api/stream.go:26-58 | whatever the polls read, streamed interval numbers strictly increase |
| AsyncRun.WatchRun | internal/monitor/watch.go:15-47 | returns nil exactly when the first final record read is a completed one; prints each status line unless it repeats the last |
| AsyncRun.PrintedFollowsTicks | internal/monitor/watch.go:26-30 | the last printed line is the last tick's, no line is printed twice in a row, and each tick prints its own or none |
| AsyncRun.SuccessShows | internal/orchestrator/async.go:35-80 | the entries and records a successful run shows, in order |
| AsyncRun.FailureShows | internal/orchestrator/async.go:61-76 | those of a run that is refused, fails or cannot be published, with its error |
| AsyncRun.StoredStatusSettlesOnce | internal/orchestrator/async.go:35-80 | there is always a record; completed or failed never changes again; a finished run has the matching record unless a write was lost |
| AsyncRun.VisibleExceptInFailureGap | internal/orchestrator/async.go:46-80 | a known run has an entry or a final record, except exactly while a started run has failed and its failure is not stored |
| AsyncRun.SuccessIsNeverInvisible | internal/orchestrator/run.go:122-125 | a run that ends well is at every earlier moment live or stored as completed |
| AsyncRun.ObserversAreRight | internal/monitor/watch.go:33-44 | a stream ends only with the final record, which stays; the watcher returns nil only on completed and an error only on failed |
| AsyncRun.SuccessIsNoticed | internal/api/stream.go:48-89 | after success the next poll ends the stream and the next look the watch |
| AsyncRun.FailedStreamEndsIff | internal/orchestrator/async.go:61-76 | the stream of a failed run ends, now or later, exactly if some live lookup came between the end of a started run and the failed entry and every read of the store after it came once the failure was stored |
| AsyncRun.RefusedStreamNeverEnds | internal/orchestrator/async.go:61-76 | a run refused before its first own progress entry keeps an entry throughout, so its stream never ends |
| AsyncRun.FailedStreamCanHang | internal/orchestrator/run.go:191-193 | a run of a started, failed benchmark whose stream hangs |
| AsyncRun.FailedStreamCanEnd | internal/orchestrator/run.go:191-193 | one whose stream does end |
| FioLogs.ParseLogFile | internal/engine/fio_logs.go:57-87 | the usable values of a log under 1, 2, 3, ... |
| FioLogs.ValuesOfUsableLines | internal/engine/fio_logs.go:57-87 | each usable line's value stands at its place among the usable lines, and there are no others |
| FioLogs.ParseIntervals | internal/engine/fio_logs.go:18-54 | one numbered sample per entry of the longer log, 0 where the other is behind |
| FioLogs.Watch | internal/engine/fio_logs.go:116-141 | on growing logs every sample is delivered once and in order, at the first poll that sees it, and all after the last flush |
| FioLogs.DeliveredRate | internal/engine/fio_logs.go:116-141 | a delivered rate is the final one, or 0 because the iops log was behind |
| Baseline.AlertMeans | internal/baseline/baseline.go:45-105 | an alert on a metric, without divisions: both values positive and the change beyond the threshold's share |
| Baseline.ReferenceFromHistory | internal/baseline/rolling.go:20-52 | the highest rate with the first run that reached it, and the lowest positive latency, of the runs that count |
| Baseline.AlertsDescribe | internal/baseline/baseline.go:45-90 | an alert gives both values, the change in percent and the limit that applies; at most one for each metric |
| Baseline.SamePlaceIff | internal/baseline/baseline.go:32-43 | two runs have equal keys exactly if their first non-empty addresses are equal up to blanks, or neither has one, or the one that there is reads _default |
| Baseline.CountsIff | internal/baseline/rolling.go:25-34 | a run counts exactly if it is another one of the same profile and place with a positive rate |
| Baseline.CheckAgainstReference | internal/baseline/rolling.go:54-70 | the alerts against the reference, marked as rolling |
| Baseline.RollingAlertsDescribe | internal/baseline/rolling.go:20-70 | a rolling alert compares with the best value of the comparable runs |
| Baseline.RollingDominates | internal/baseline/rolling.go:20-70 | every alert against one counted run is a rolling alert, for all thresholds |
| Baseline.RollingAlertsIff | internal/baseline/rolling.go:20-70 | rolling alerts on a metric exactly when some counted run alerts, for every history, order and threshold |
| Baseline.CheckRegression | internal/orchestrator/run.go:380-400 | the stored baseline decides if there is one, otherwise the comparable runs of the history: an alert on a metric exactly if it regressed by more than 10 or 15 percent |
| Overrides.Profile.Clone | internal/profile/overrides.go:10-20 | a fresh profile with equal parameters |
| Overrides.Profile.SyncParamAliases | internal/profile/overrides.go:68-115 | computes the pointwise meaning of every alias |
| Overrides.Profile.ApplyOverrides | internal/profile/overrides.go:23-37 | writes the non-nil overrides in the map's order under normalized names, then synchronizes; nothing without overrides |
| Overrides.WrittenUnder | internal/profile/overrides.go:40-66 | an override is written under its trimmed lower-case name, or under the one name that this stands for |
| Overrides.ObjectSizeFromBounds | internal/profile/overrides.go:106-114 | with bounds the object size is the printed range or bound, and without them it stays |
| Overrides.SyncCloses | internal/profile/overrides.go:68-115 | durations equal or both absent, pairs together, size bounds determine the size |
| Overrides.SyncFixedIff | internal/profile/overrides.go:68-115 | exactly the parameters whose spellings agree are left as they are |
| Overrides.SyncTwice | internal/profile/overrides.go:68-115 | synchronizing is idempotent |
| Overrides.SyncKeeps | internal/profile/overrides.go:68-115 | nothing is dropped and only runtime and object size can change their value |
| Overrides.OrderIrrelevantIff | internal/profile/overrides.go:30-36 | independent of map order exactly when names that normalize alike agree on every key that is not masked |
| Overrides.OverrideShowsIff | internal/profile/overrides.go:68-115 | for every key written and every key looked at, exactly when it shows the new value |
| Overrides.OverrideTakesEffectIff | internal/profile/overrides.go:30-66 | exactly when a single override can be read back under the name the caller gave: a rewritten name only if it had the value before, or is threads and was absent |
| Overrides.QueueDepthOverrideIgnored | internal/profile/overrides.go:51-52 | an override of queue_depth is written to iodepth and leaves the profile's own queue_depth |
| Overrides.OtherSpellingFollowsIff | internal/profile/overrides.go:69-103 | the other spelling follows an override of the duration always, that of i/o depth and ramp time never, any other exactly when it was absent or equal |
| NodeList.HostsToNodes | internal/lab/config.go:171-182 | the nodes of the non-blank pieces in order |
| NodeList.NodesCsv | internal/lab/config.go:244-250 | the printed nodes joined by commas |
| NodeList.PrintedParsesIff | internal/lab/config.go:188-197 | one printed node parses back exactly if its host is non-empty without leading space and its port positive; colons are harmless |
| NodeList.RoundTripIff | internal/lab/config.go:171-250 | a list comes back exactly when moreover no host has a comma |
| NodeList.ParsedRoundTrips | internal/lab/config.go:171-250 | with a positive default port every parsed list comes back, roles included |
| LabConfig.Config.Normalize | internal/lab/config.go:199-234 | keeps what the user gave and fills each missing field and port with the code's own default |
| LabConfig.FilledInUnique | internal/lab/config.go:199-234 | that is the only result that does so |
| LabConfig.NormalizeTwice | internal/lab/config.go:199-234 | normalizing again changes nothing |
| LabConfig.Config.ClientCsv | internal/lab/config.go:236-238 | the printed clients |
| LabConfig.Config.ServerCsv | internal/lab/config.go:240-242 | the printed servers |
| LabConfig.NormalizedListsRoundTripIff | internal/lab/config.go:199-250 | after normalization the printed lists come back exactly when hosts are clean, no port was negative and no client without a port meets a negative agent port |

## Left out

- Kubernetes optimistic-lock conflicts and failing calls: a get and the update under its resource version are one call, and a conflict or failure is a crash, which the crash theorems cover.
- Several Benchmark resources and clipped object names: one resource at a time, names short enough not to collide.
- The digest: any function from the digested text, collisions included; the text itself is modelled.
- The retry-applied annotation is written by the operator alone.
- The operator's messages: constructors instead of texts; a failing status file is present or absent.
- Floating point: reals, without rounding, NaN or infinities.
- Go `int` totals and Rust counters: unbounded, except offsets, cursors, queue depths and ports, whose widths are modelled.
- Overflow checks of debug builds: arithmetic wraps as in a release build.
- Size strings: splitting a text into number and unit is left out; the number is arbitrary, and its saturating conversion is modelled.
- The io_uring kernel interface: a component that takes any prefix of the queue and returns each entry once; ring creation failures and kernel limits on ring size are left open.
- IoUring.Worker.Work: how long a turn takes is left open; a failed submit is retried in the next turn, and how often that happens is not bounded.
- LiveProgress.StreamedOnceInOrder: assumes that appended lines reach the file in order and that JSON printing and parsing are inverse on whole lines and reject cut ones.
- EngineRunState.InterleavingsConserve: treats the append to the sample buffer, which holds a lock, as one step.
- Time: arbitrary inputs; ticker periods and timestamps are not modelled.
- Aggregate.AggregateTotals: says nothing about mean, CPU, percentile maps and pending volumes, which merging averages or drops; EveryFieldAggregates and GroupedAverageAgreesIff have them.
- Intervals.MergedBucketTotals: says nothing about a bucket's number, timestamp, elapsed time and average latency; EveryFieldMerges has them.
- Negative measurements: the aggregation theorems are for non-negative inputs.
- RunProgress.IntervalsBounded: ends with the aggregation entry, which restarts the interval count at zero in the code.
- AsyncRun.StoredStatusSettlesOnce: the result record is its status, rate and errors; the audit, inventory and metrics that go with it are not modelled.
- Validation and profile rules, discovery, provenance: outside this model; refusing a run is one event.
- Overrides.NormalizeParamKey: lower-cases ASCII letters only.
- Overrides.Profile.Clone: parameter maps are values here, so sharing between a profile and its copy cannot be expressed.
- FioLogs.ParseIntervals: the fallback to other log files, truncated files and lines, and the parsing of a line's number are not modelled.
- NodeList.HostsToNodes: strings are sequences of characters, not of UTF-8 bytes.
- HTTP, MCP, SSH, SQL, git, reports, charts, the planner, the Prometheus gauges and all external engine runners: effects or parsing of unseen tools.
