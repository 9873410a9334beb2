# FHSS dashboard and accelerator transfers: a verified model

This project models the stateful core of the FHSS dashboard and of the accelerator library, and
proves what they promise over every run or every input.

- **Job controller** (`JobModel`, `JobRuns`, `JobRetention`, `JobSafety`, `JobTheorems`,
  `JobAdmission`, `JobReceiver`, `JobOutcomes`, `JobRecords`, `JobReports`, `JobWitnesses`,
  `JobController`): a queue with one worker. Each critical section is one atomic step, and the
  theorems hold for every interleaving of requests and worker steps.
- **Investigation bundles** (`BundleModel`, `BundleRuns`, `BundleHistory`, `BundleOutcomes`,
  `BundleRequests`, `BundleService`, `BundleFormat`): the operations with their atomic rename and
  bounded history, and the manifest writer against its independent checker.
- **Accelerator sessions** (`Accel`, `AccelBytes`, `AccelSimulation`, `AccelRefinement`, `AccelSteps`,
  `AccelRelease`, `AccelCpu`, `MetalSession`, `AccelNodes`, `TransferNodes`): the synchronous CPU
  session, the asynchronous Metal session that refines it, concurrent releases, and the transfer
  nodes.
- **Schedules and comparison** (`Schedule`, `Compare`, `CompareTheorems`): scenario validation, the
  expected-pulse expansion and the greedy matcher.
- **Hashes** (`Padding`, `Sha256`, `Sha256Hasher`, `Sha512`, `Sha512Hasher`, `Sha2Constants`,
  `HashFd`): the streaming classes against FIPS 180-4.
- **Output transaction** (`CommitFiles`), **configuration policy** (`Policy`, `PolicyGraph`) and
  **runtime owner** (`RuntimeOwner`).

Objects are classes whose methods are proved to take the steps of a value-level model. Both
controllers carry, as ghost state, the run of the model that their calls have made, so every theorem
about runs holds of every sequence of calls; the runtime owner carries the invariant of its runs.
Clocks, hash functions in the controllers, file writes and the receiver appear as parameters: an
expired deadline is a nondeterministic flag, a fault is an environment choice.
`hide` statements only narrow what the solver sees.

## Where a stronger reading fails

Each of these has its exact condition and a run or call that shows it.

- `Shutdown` of the job controller throws when the worker has popped a job and not begun it, because
  the table has no edge from `queued` to `cancelling` (`ShutdownThrowsIffBetweenPopAndBegin`,
  `ShutdownCanThrow`).
- Both `Shutdown` methods flag an active job or operation that is already at rest, so a set flag does
  not imply `cancelled` (`FlaggedByShutdownEndsCancelledIff` with `ShutdownCanFlagAFailedJob`,
  `FlaggedComesToRestCancelledIff` with `ShutdownCanFlagAFailedOperation`).
- The truth file can return while the receiver still executes: the worker ignores the result of
  `Stop`, which may time out, and a start may throw after it succeeded
  (`TruthIsAbsentWhileExecutingIff`, `TruthCanReturnTooEarly`).
- A second allowed release of a completion is reported as released by the CPU session and as not
  released by the Metal session (`MetalRefinesCpu`, `SecondRetireIsReportedDifferently`).
- `CommitOutputFiles` without `force` can lose an existing target when a later step fails
  (`LosesAFileIff`, `UnforcedOverwriteLosesTheFile`).
- A failed transfer execution leaks the buffers it took, and `Stop` does not reclaim them
  (`StopRestoresIffNothingFailed`, `MoveAfterReleaseLeaks`).

The idempotency eviction loop of the job controller can never run (`IdempotencyTableStaysSmall`).

## Model

| member | source | states |
|---|---|---|
| `JobTheorems.RunInvariant` | examples/DSP/dashboard/FHSSJobController.cpp:355-1204 | every state reached by any interleaving of submit, cancel, reset, shutdown, stop, pop and worker steps satisfies the controller invariant (record soundness, roles, budget, idempotency, tiling) |
| `JobTheorems.EveryStateChangeIsLegal` | examples/DSP/dashboard/FHSSJobController.cpp:315-334 | over every run the states written to a job form a path of the transition table from `queued`, later states only extend it, and neither the `illegal_state_transition` fallback nor a throwing transition ever ends a job |
| `JobTheorems.TerminalIsForever` | examples/DSP/dashboard/FHSSJobController.cpp:1068-1116 | a job at rest keeps its whole record for the rest of the run, the cancellation flag excepted |
| `JobTheorems.AcceptedCancelWins` | examples/DSP/dashboard/FHSSJobController.cpp:614-639 | after an accepted cancel the job is only ever `cancelling` or `cancelled`, so it can end no other way |
| `JobTheorems.CancelledWhileQueuedNeverRuns` | examples/DSP/dashboard/FHSSJobController.cpp:614-639 | a job cancelled while queued stays `cancelled` with code `cancelled_before_generation` and never invokes generator or receiver |
| `JobOutcomes.RestsIffEnded` | examples/DSP/dashboard/FHSSJobController.cpp:715-1050 | over every run a job rests in a state with a code if and only if some step ended it so: a cancel or shutdown while it waited, or a worker step with one of the listed causes, where the receiver's result is what an earlier step observed |
| `JobOutcomes.CompletedIff` | examples/DSP/dashboard/FHSSJobController.cpp:1026-1040 | a job is `completed` if and only if a step of it observed a completed and accepted replay and a later step concluded without exception and uncancelled |
| `JobOutcomes.ReceiverFailureIff` | examples/DSP/dashboard/FHSSJobController.cpp:1026-1040 | it fails with `receiver_execution_failed` or `missing_receiver_message` if and only if it concluded uncancelled on a replay that had not completed, or had completed without an accepted message |
| `JobOutcomes.TimedOutIff` | examples/DSP/dashboard/FHSSJobController.cpp:742-968 | it is `timed_out` if and only if an uncancelled step at one of the deadline checks found the deadline passed, without exception or refusal |
| `JobOutcomes.ThrownOrRefusedIff` | examples/DSP/dashboard/FHSSJobController.cpp:884-1050 | it fails with an exception's code if and only if an uncancelled step threw that exception, and with a refusal's code if and only if the rebuild or the start of the receiver was refused |
| `JobRecords.CancelledIff` | examples/DSP/dashboard/FHSSJobController.cpp:614-692 | a rested job is `cancelled` if and only if it was cancelled, or caught by the shutdown, while live |
| `JobRecords.RestedStoresWhatWasGenerated` | examples/DSP/dashboard/FHSSJobController.cpp:782-1050 | a rested job with recorded digests holds exactly the recording and the four documents that the generator returned to it, each under its own name |
| `JobRecords.WorkerGetsOn` | examples/DSP/dashboard/FHSSJobController.cpp:694-1050 | every worker step brings the job nearer to its end except a round of polling that sees neither result, cancel nor deadline; after the end the worker is free |
| `JobReports.ReportFollowsHistory` | examples/DSP/dashboard/FHSSJobController.cpp:1068-1116 | over every run the generation report is the one the job's history calls for: success if it was ever `generated`, otherwise its own end or the lack of a generation |
| `JobTheorems.ShutdownThrowsIffBetweenPopAndBegin` | examples/DSP/dashboard/FHSSJobController.cpp:665-692 | `Shutdown` throws if and only if the popped job is still `queued`, which happens only between the pop and the first critical section of `Process` |
| `JobWitnesses.ShutdownCanThrow` | examples/DSP/dashboard/FHSSJobController.cpp:665-692 | a real run: submit, pop, and a `Shutdown` that throws |
| `JobTheorems.ThrowingShutdownStillCancels` | examples/DSP/dashboard/FHSSJobController.cpp:665-735 | after such a throw the worker's next step ends the job `cancelled` without work |
| `JobTheorems.FlaggedByShutdownEndsCancelledIff` | examples/DSP/dashboard/FHSSJobController.cpp:665-692 | a job flagged by `Shutdown` rests `cancelled` if and only if it was not already at rest in another state when flagged |
| `JobWitnesses.ShutdownCanFlagAFailedJob` | examples/DSP/dashboard/FHSSJobController.cpp:665-692 | a real run in which `Shutdown` flags a job that failed and stays `failed` |
| `JobTheorems.RetentionHolds` | examples/DSP/dashboard/FHSSJobController.cpp:1159-1204 | the byte counter equals the sum over retained artifacts, bytes plus 64 MiB per job stay within 512 MiB, at most eight jobs are held |
| `JobTheorems.HistoryFullIffEightLiveJobs` | examples/DSP/dashboard/FHSSJobController.cpp:454-461 | an otherwise new submit is refused for a full history if and only if eight non-terminal jobs exist |
| `JobTheorems.OnlyTerminalJobsAreEvicted` | examples/DSP/dashboard/FHSSJobController.cpp:1159-1204 | a job leaves the retained list only in a submit, and only when at rest |
| `JobTheorems.KnownKeyIsIdempotent` | examples/DSP/dashboard/FHSSJobController.cpp:441-453 | a known key changes nothing; the same request gets the retained job carrying that key and request, another request is refused |
| `JobTheorems.IdempotencyTableStaysSmall` | examples/DSP/dashboard/FHSSJobController.cpp:1194-1203 | the idempotency table never exceeds eight entries, so its own eviction loop never runs |
| `JobTheorems.AcceptedIntervalsTile` | examples/DSP/dashboard/FHSSJobController.cpp:485-562 | between resets the accepted jobs' message intervals are disjoint, in order, and cover exactly [0, cursor) |
| `JobTheorems.ResetMeansQuiet` | examples/DSP/dashboard/FHSSJobController.cpp:641-663 | a reset succeeds if and only if every job is at rest |
| `JobAdmission.NewRequestIsAnswered` | examples/DSP/dashboard/FHSSJobController.cpp:454-562 | a request that is neither known nor late gets its first obstacle as the answer (room, configuration, end of the schedule, 512 pulses, channel map), each if and only if; without one it becomes the next job at the cursor, otherwise no job changes |
| `JobAdmission.EveryJobWasAdmitted` | examples/DSP/dashboard/FHSSJobController.cpp:437-562 | every job of a run was admitted by a submit that met all conditions, and is for exactly the key, request, time and cursor of that submit |
| `JobAdmission.TakesTheOldest` | examples/DSP/dashboard/FHSSJobController.cpp:694-713 | the idle worker takes the oldest live job |
| `JobAdmission.FirstInFirstOut` | examples/DSP/dashboard/FHSSJobController.cpp:694-713 | jobs are begun in the order in which they were accepted |
| `JobAdmission.OldJobsLeaveFirst` | examples/DSP/dashboard/FHSSJobController.cpp:1159-1204 | a new request sends away every rested job older than the cutoff, and younger rested ones oldest first |
| `JobAdmission.NothingLeavesWithoutNeed` | examples/DSP/dashboard/FHSSJobController.cpp:1159-1204 | while there is room for every job that is not old, no other job and no earlier artifact leaves |
| `JobAdmission.ResetStartsOver` | examples/DSP/dashboard/FHSSJobController.cpp:641-663 | after a reset every key is free and the next job starts at the first message; the epoch grows if and only if there was something to forget; jobs stay |
| `JobAdmission.CancelIsAnswered` | examples/DSP/dashboard/FHSSJobController.cpp:614-639 | a cancel is `not found` for a job that is not held, without effect on one at rest, and carried out on every live one; nothing else changes |
| `JobAdmission.ResetIsAnswered` | examples/DSP/dashboard/FHSSJobController.cpp:641-663 | a reset is refused for the active job if that is live, otherwise for any live job that waits, and then changes nothing |
| `JobReceiver.TruthIsAbsentWhileExecutingIff` | examples/DSP/dashboard/FHSSJobController.cpp:909-1028 | at every moment a receiver executes, its job's truth file is absent if and only if no earlier step ended the job and left the receiver executing, by an exception after the start or a stop that timed out |
| `JobWitnesses.TruthCanReturnTooEarly` | examples/DSP/dashboard/FHSSJobController.cpp:946-963 | a real run in which a stop times out and the truth file is back while the receiver executes |
| `JobReceiver.ReceiverStartsWithoutTruth` | examples/DSP/dashboard/FHSSJobController.cpp:851-914 | every worker step that calls `Start`, whether it is refused, succeeds or throws, does so with the truth file absent, which stays absent unless the job ends in that step |
| `JobTheorems.ReplayIsMarkedWithoutTruth` | examples/DSP/dashboard/FHSSJobController.cpp:91-120 | the step that records the receiver's invocation does so with the truth file absent before and after |
| `JobTheorems.RestedJobsMatchTheirManifest` | examples/DSP/dashboard/FHSSJobController.cpp:782-1050 | a job at rest has every recorded file back on disk with the recorded digest; a completed one has recorded all of them |
| `JobTheorems.ExportAcceptsCompletedJobs` | examples/DSP/dashboard/FHSSInvestigationBundleService.cpp:1240-1259 | every completed job passes the digest comparisons that `Export` makes on its committed source files |
| `JobRetention.PurgeMakesRoom` | examples/DSP/dashboard/FHSSJobController.cpp:1159-1204 | one purge drops only jobs at rest and leaves room for one more job unless every retained job is live and no artifact is left to drop |
| `JobRuns.WorkKeepsJob` | examples/DSP/dashboard/FHSSJobController.cpp:715-1050 | every critical section of `Process` keeps the record sound, legal, cancellation-visible and consistent with the files |
| `JobControllerObject.JobController.ReconcileArtifactsAtStartup` | examples/DSP/dashboard/FHSSJobController.cpp:270-286 | keeps the longest suffix of the candidates, sorted by age, that holds none older than the cutoff and stays within both limits, with an exact byte counter |
| `JobControllerObject.JobController.PurgeUnlocked` | examples/DSP/dashboard/FHSSJobController.cpp:1159-1204 | the three eviction loops compute the purge step of the model |
| `JobControllerObject.JobController.Transition` | examples/DSP/dashboard/FHSSJobController.cpp:1052-1066 | takes the table's edge, or throws and changes nothing |
| `JobControllerObject.JobController.Terminal` | examples/DSP/dashboard/FHSSJobController.cpp:1068-1116 | writes the terminal record with cancellation precedence and the illegal-transition fallback |
| `JobControllerObject.JobController.Submit` | examples/DSP/dashboard/FHSSJobController.cpp:437-562 | takes the submit step: replay of a known key, refusals, purge, enrolment at the cursor; the object stays in a state of a run of the model that this call extends by one event |
| `JobControllerObject.JobController.Cancel` | examples/DSP/dashboard/FHSSJobController.cpp:614-639 | takes the cancel step and replies accordingly; the object stays in a state of a run of the model that this call extends by one event |
| `JobControllerObject.JobController.Reset` | examples/DSP/dashboard/FHSSJobController.cpp:641-663 | takes the reset step; the object stays in a state of a run of the model that this call extends by one event |
| `JobControllerObject.JobController.Shutdown` | examples/DSP/dashboard/FHSSJobController.cpp:665-692 | takes the shutdown step and reports whether it threw; the object stays in a state of a run of the model that this call extends by one event |
| `JobControllerObject.JobController.PopNext` | examples/DSP/dashboard/FHSSJobController.cpp:694-713 | takes the pop step; the object stays in a state of a run of the model that this call extends by one event |
| `JobControllerObject.JobController.Process` | examples/DSP/dashboard/FHSSJobController.cpp:715-1050 | takes the worker step of the current critical section; the object stays in a state of a run of the model that this call extends by one event |
| `BundleRuns.RunInvariant` | examples/DSP/dashboard/FHSSInvestigationBundleService.cpp:1008-1498 | every interleaving of requests, shutdown and worker steps keeps the operation, directory and worker invariants |
| `BundleRuns.FlaggedIsNeverPublished` | examples/DSP/dashboard/FHSSInvestigationBundleService.cpp:1465-1485 | once an operation's cancel flag is set it is never published |
| `BundleRuns.FlaggedComesToRestCancelledIff` | examples/DSP/dashboard/FHSSInvestigationBundleService.cpp:1864-1959 | a flagged operation rests `cancelled` if and only if it had not already ended otherwise when it carried the flag, and then keeps that end |
| `BundleRuns.ShutdownCanFlagAFailedOperation` | examples/DSP/dashboard/FHSSInvestigationBundleService.cpp:1935-1959 | a concrete run in which `Shutdown` flags an operation that stays `failed` |
| `BundleRuns.PublishedIsPermanent` | examples/DSP/dashboard/FHSSInvestigationBundleService.cpp:1465-1498 | after the rename the operation stays `completed`, its record never changes and its bundle stays in place |
| `BundleRuns.EarlierBundlesStay` | examples/DSP/dashboard/FHSSInvestigationBundleService.cpp:1281-1284 | directories that existed before the service started are never removed or overwritten |
| `BundleRuns.FailedExportLeavesNothing` | examples/DSP/dashboard/FHSSInvestigationBundleService.cpp:1494-1498 | an export that ended unpublished owns no directory unless removing its staging directory failed |
| `BundleOutcomes.CompletedIff` | examples/DSP/dashboard/FHSSInvestigationBundleService.cpp:1094-1161 | an operation completes if and only if it publishes its bundle, or its last piece of work went well and no cancel came before the conclusion |
| `BundleOutcomes.CompletedMetNoTrouble` | examples/DSP/dashboard/FHSSInvestigationBundleService.cpp:1094-1498 | no step of a completed operation before its end met an exception, a collision or an interruption |
| `BundleOutcomes.FailedIff` | examples/DSP/dashboard/FHSSInvestigationBundleService.cpp:1132-1160 | it fails if and only if an input-output trouble, or another trouble that is not an interruption by cancel, stop or deadline, was handled and no cancel came first; a failing replay is one |
| `BundleOutcomes.TimedOutIff` | examples/DSP/dashboard/FHSSInvestigationBundleService.cpp:1132-1160 | it times out if and only if an interruption was handled with nothing cancelled or stopped and the deadline passed, and no cancel came before its end |
| `BundleOutcomes.StateShowsProgress` | examples/DSP/dashboard/FHSSInvestigationBundleService.cpp:1094-1498 | at every point of a run the operation is of the kind the point belongs to and reports the state of that point unless cancelled; copying happens exactly for copying exports |
| `BundleRequests.EveryOperationWasSubmitted` | examples/DSP/dashboard/FHSSInvestigationBundleService.cpp:948-982 | every operation was submitted while the service was up and is of the kind, key and request of that submit |
| `BundleRequests.TakesTheOldest` | examples/DSP/dashboard/FHSSInvestigationBundleService.cpp:1069-1086 | the worker takes the oldest operation that is not at rest |
| `BundleRequests.FirstInFirstOut` | examples/DSP/dashboard/FHSSInvestigationBundleService.cpp:1069-1086 | operations are begun in the order in which they were accepted |
| `BundleRequests.CancelIsAnswered` | examples/DSP/dashboard/FHSSInvestigationBundleService.cpp:1008-1035 | a cancel is `not found` for an operation that is not listed, without effect on one at rest or published, and flags every other |
| `BundleRequests.AcceptedCancelWins` | examples/DSP/dashboard/FHSSInvestigationBundleService.cpp:1008-1035 | after an accepted cancel an operation never completes, fails or times out and is never published |
| `BundleRequests.CancelledIff` | examples/DSP/dashboard/FHSSInvestigationBundleService.cpp:1008-1035 | an operation that is over is `cancelled` if and only if an accepted cancel or the shutdown withdrew it before it had ended otherwise |
| `BundleHistory.RunHistory` | examples/DSP/dashboard/FHSSInvestigationBundleService.cpp:948-982 | over every run at most 32 operations are listed, in order of arrival and with every queued one among them; keys and listed operations correspond one to one, each key bound to the request it came with |
| `BundleHistory.KnownKeyIsIdempotent` | examples/DSP/dashboard/FHSSInvestigationBundleService.cpp:953-961 | a known key changes nothing; the same request gets the listed operation that carries it, another request is refused |
| `BundleHistory.HistoryFullIffAllLive` | examples/DSP/dashboard/FHSSInvestigationBundleService.cpp:962-965 | a new request is turned away if and only if 32 operations are listed and none is at rest; what a submit drops was at rest |
| `BundleHistory.TrimmedFacts` | examples/DSP/dashboard/FHSSInvestigationBundleService.cpp:1922-1933 | the purge loop drops only operations at rest, keeps the order, and stops full only when everything left is live |
| `BundleServiceObject.BundleService.Transition` | examples/DSP/dashboard/FHSSInvestigationBundleService.cpp:1864-1871 | writes the state, or `cancelling` for a flagged operation |
| `BundleServiceObject.BundleService.Terminal` | examples/DSP/dashboard/FHSSInvestigationBundleService.cpp:1873-1891 | ends an operation once, with cancellation precedence |
| `BundleServiceObject.BundleService.Submit` | examples/DSP/dashboard/FHSSInvestigationBundleService.cpp:948-982 | takes the submit step: refusal during shutdown, replay of a known key, purge, history limit, enrolment; the object stays in a state of a run of the model that this call extends by one event |
| `BundleServiceObject.BundleService.Cancel` | examples/DSP/dashboard/FHSSInvestigationBundleService.cpp:1008-1035 | takes the cancel step; accepted if and only if the operation is listed, not at rest and not committed; the object stays in a state of a run of the model that this call extends by one event |
| `BundleServiceObject.BundleService.Shutdown` | examples/DSP/dashboard/FHSSInvestigationBundleService.cpp:1935-1959 | takes the shutdown step; the object stays in a state of a run of the model that this call extends by one event |
| `BundleServiceObject.BundleService.PopNext` | examples/DSP/dashboard/FHSSInvestigationBundleService.cpp:1069-1086 | takes the pop step; the object stays in a state of a run of the model that this call extends by one event |
| `BundleServiceObject.BundleService.Rename` | examples/DSP/dashboard/FHSSInvestigationBundleService.cpp:1465-1485 | the critical section around the rename: never commits a flagged operation, never replaces an existing name |
| `BundleServiceObject.BundleService.Process` | examples/DSP/dashboard/FHSSInvestigationBundleService.cpp:1094-1161 | takes the worker step of the current point of `Process`, `Export`, `ValidateBundle` or `Replay`; the object stays in a state of a run of the model that this call extends by one event |
| `BundleFormat.ValidateBundle` | examples/DSP/dashboard/FHSSInvestigationBundleService.cpp:1511-1715 | accepts exactly the bundles that satisfy the declarative inventory, digest, visibility, size, sample-count, IQ, SigMF, isolation and semantic-digest conditions and are unchanged at the second hash, and returns the matching recording |
| `BundleFormat.CheckArtifacts` | examples/DSP/dashboard/FHSSInvestigationBundleService.cpp:1543-1591 | the artifact loop succeeds if and only if paths are distinct, every entry describes its file, and the byte total fits |
| `BundleFormat.Export` | examples/DSP/dashboard/FHSSInvestigationBundleService.cpp:1205-1454 | reaches publication exactly when every check passes; then each published file is the source's document of that name (truth, metadata and receiver graph being those whose digests were compared), nothing else is published, and the manifest names job and recording and describes every file, only receiver configuration and recording being receiver-visible |
| `BundleFormat.ExportedIsAcceptable` | examples/DSP/dashboard/FHSSInvestigationBundleService.cpp:1298-1454 | every bundle that `Export` publishes passes the checks of `ValidateBundle` |
| `BundleFormat.ManifestFits` | examples/DSP/dashboard/FHSSInvestigationBundleService.cpp:1403-1443 | fixed names, fixed-length digests and bounded tokens keep every exported manifest within the 1 MiB that the checker reads |
| `BundleFormat.DigestBindsTheBundle` | examples/DSP/dashboard/FHSSInvestigationBundleService.cpp:1529-1592 | two accepted bundles with the same detached digest are equal or exhibit a SHA-256 collision between namesake files |
| `BundleFormat.AlteredFileIsRejected` | examples/DSP/dashboard/FHSSInvestigationBundleService.cpp:1529-1592 | altering any one file of an accepted bundle is rejected short of a SHA-256 collision (for an artifact also SHA-512 and equal length); altering the detached digest always is |
| `BundleFormat.AddedOrRemovedFileIsRejected` | examples/DSP/dashboard/FHSSInvestigationBundleService.cpp:1591-1608 | adding or removing any one file makes the checker reject |
| `BundleFormat.ChangedWhileCheckedIsRejected` | examples/DSP/dashboard/FHSSInvestigationBundleService.cpp:1661-1681 | a bundle left alone passes the second hash; an artifact replaced, removed or rewritten between the two is caught short of a same-length collision under both hash functions |
| `AccelSteps.MetalRefinesCpu` | libaccelgraph/src/CpuAcceleratorProvider.cpp:1109-1586 | over every disciplined run both sessions give the same answer if and only if the step is not an allowed second release of a completion, and they hold identical host and device bytes whenever no transfer is open |
| `AccelSteps.StepAgrees` | libaccelgraph/src/CpuAcceleratorProvider.cpp:615-726 | one disciplined operation keeps the sessions in agreement and is answered alike by both, `released` reports included, if and only if it is not an allowed second release of a completion |
| `AccelSteps.SecondRetireIsReportedDifferently` | libaccelgraph/src/CpuAcceleratorProvider.cpp:501-523 | a real run after which the second release of a completion is reported as released by the CPU session and as not released by Metal |
| `AccelSteps.SecondWaitChangesNothing` | libaccelgraph/src/CpuAcceleratorProvider.cpp:1153-1174 | a wait that is not the first leaves the whole session unchanged, so later host writes survive |
| `AccelSimulation.CopiesStayInBounds` | libaccelgraph/src/CpuAcceleratorProvider.cpp:1153-1174 | in any order of operations every pending copy stays within the buffers that still exist, so the deferred host copy is in bounds |
| `AccelRelease.ReleasedAtMostOnce` | libaccelgraph/src/CpuAcceleratorProvider.cpp:554-613 | over every interleaving of validate, erase and flag store at most one release of a host, device or queue handle reports `released` |
| `AccelRelease.QuietMeansConsistent` | libaccelgraph/src/CpuAcceleratorProvider.cpp:554-613 | with no call in flight a resource is stored if and only if its handle is not released, and a released one was reported by a call |
| `AccelRelease.KindsNeverChange` | libaccelgraph/src/CpuAcceleratorProvider.cpp:44-48 | identifiers never repeat, so a host and a device identifier never collide |
| `AccelRelease.ForeignHandleIsRefused` | libaccelgraph/src/CpuAcceleratorProvider.cpp:527-550 | a handle of another session is refused at once and no later step of that call changes anything |
| `AccelNodes.RoundTrip` | libaccelgraph/src/TransferGraphNodes.cpp:227-573 | ingress, host to device, device to host and egress over one session return every nonempty byte string exactly |
| `AccelBytes.TransferIsAcceptedIff` | libaccelgraph/src/CpuAcceleratorProvider.cpp:615-726 | a transfer is accepted if and only if its handles are owned, queue and buffers live, and a nonempty window lies inside both buffers |
| `AccelBytes.TransferMovesTheWindow` | libaccelgraph/src/CpuAcceleratorProvider.cpp:615-726 | an accepted transfer fills the target's window from the source's, byte by byte, and changes no other byte and no other buffer |
| `AccelBytes.WriteThenRead` | libaccelgraph/src/CpuAcceleratorProvider.cpp:284-377 | what was written is read back; bytes outside the window and other allocations read as before |
| `AccelNodes.StopRestoresIffNothingFailed` | libaccelgraph/src/TransferGraphNodes.cpp:227-517 | after any run of executions, failing ones included, and early lease releases, stopping the nodes leaves what was there before plus exactly the leaks; so it restores the session if and only if no transfer of positive size failed |
| `AccelNodes.ToDeviceSucceedsIff` | libaccelgraph/src/TransferGraphNodes.cpp:310-369 | a host-to-device execution succeeds if and only if its size is positive and its source is owned, live and long enough |
| `AccelNodes.ToHostSucceedsIff` | libaccelgraph/src/TransferGraphNodes.cpp:436-493 | a device-to-host execution succeeds if and only if its size is positive, its source is owned, live and long enough, and its queue is owned and live |
| `AccelNodes.MoveAfterReleaseLeaks` | libaccelgraph/src/TransferGraphNodes.cpp:311-351 | a real run that leaks: feed, release the ingress lease, move its token; stopping does not restore the session |
| `AccelCpu.CpuSession.EnqueueTransfer` | libaccelgraph/src/CpuAcceleratorProvider.cpp:615-726 | copies exactly the requested range at once, or refuses and changes nothing |
| `AccelCpu.CpuSession.WriteHost` | libaccelgraph/src/CpuAcceleratorProvider.cpp:284-329 | splices the bytes into the allocation, or refuses and changes nothing |
| `AccelCpu.CpuSession.ReadHost` | libaccelgraph/src/CpuAcceleratorProvider.cpp:331-377 | returns exactly the requested range of an owned live allocation |
| `AccelCpu.CpuSession.ReleaseHost` | libaccelgraph/src/CpuAcceleratorProvider.cpp:552-581 | removes the allocation and sets the flag; reports whether it was live |
| `AccelCpu.CpuSession.ReleaseCompletion` | libaccelgraph/src/CpuAcceleratorProvider.cpp:501-523 | retires a completion together with its event and reports `released` whenever the release is allowed |
| `MetalSessionObject.MetalSession.EnqueueTransfer` | libaccelgraph/src/CpuAcceleratorProvider.cpp:1382-1586 | stages a checked transfer without touching the target; refuses, unchanged, when the checks or the creation of its resources fail |
| `MetalSessionObject.MetalSession.Wait` | libaccelgraph/src/CpuAcceleratorProvider.cpp:1109-1180 | completes the command buffer and makes the host copy once, in bounds |
| `MetalSessionObject.MetalSession.ReleaseCompletion` | libaccelgraph/src/CpuAcceleratorProvider.cpp:1182-1229 | retires a pending completion and reports whether it was still pending |
| `TransferNodesObject.TransferNodes.ExecuteIngress` | libaccelgraph/src/TransferGraphNodes.cpp:227-258 | allocates, writes and leases, as the model's ingress step |
| `TransferNodesObject.TransferNodes.ExecuteToDevice` | libaccelgraph/src/TransferGraphNodes.cpp:310-369 | allocates, transfers, waits and leases, including what a failure leaves behind |
| `TransferNodesObject.TransferNodes.ExecuteToHost` | libaccelgraph/src/TransferGraphNodes.cpp:436-493 | the return transfer, likewise |
| `TransferNodesObject.TransferNodes.Transport` | libaccelgraph/src/TransferGraphNodes.cpp:213-573 | the whole pipeline returns its input, and nothing for an empty one |
| `TransferNodesObject.TransferNodes.StopAll` | libaccelgraph/src/TransferGraphNodes.cpp:260-517 | the release loops of all nodes compute the model's stop |
| `Schedule.Validate` | examples/DSP/dashboard/FHSSDashboardConfigurationPolicy.cpp:197-413 | reports no error if and only if the scenario satisfies the declarative validity condition; every code but the overlap is reported if and only if its rule is broken, and the overlap, when nothing else is wrong, if and only if two windows meet and may not |
| `Schedule.CheckOverlap` | examples/DSP/dashboard/FHSSDashboardConfigurationPolicy.cpp:398-413 | sorting by start and comparing neighbours finds no error if and only if the nonempty windows are pairwise disjoint |
| `Schedule.CheckWords` | examples/DSP/dashboard/FHSSDashboardConfigurationPolicy.cpp:360-368 | the word table reports no conflict if and only if every preamble frequency has one word |
| `Schedule.ComputePreamble` | examples/DSP/dashboard/FHSSDashboardConfigurationPolicy.cpp:48-65 | the first sixteen pulses of the first message, projected |
| `Schedule.ComputeActiveSet` | examples/DSP/dashboard/FHSSDashboardConfigurationPolicy.cpp:67-76 | the stable list of first occurrences of the preamble |
| `Schedule.FirstOccurrencesOnce` | examples/DSP/dashboard/FHSSDashboardConfigurationPolicy.cpp:67-76 | that list holds every preamble frequency, each once |
| `Schedule.FirstOccurrencesInOrder` | examples/DSP/dashboard/FHSSDashboardConfigurationPolicy.cpp:67-76 | and lists them in the order in which they first occur |
| `Schedule.ScanActive` | examples/DSP/dashboard/FHSSJobController.cpp:519-527 | the scan that stops at four frequencies returns the first four first occurrences of the message |
| `Schedule.ScanIsActiveSet` | examples/DSP/dashboard/FHSSJobController.cpp:519-527 | for every validated scenario and cursor this is the policy's active set, in its order |
| `Schedule.ExpectedTruth` | examples/DSP/dashboard/FHSSObservationService.cpp:271-307 | fails if and only if a listed start leaves 64 bits; otherwise lists the first 512 pulses, each after those of the earlier messages and with its message id, index, start, channel and word |
| `Schedule.ApartMeansSpaced` | examples/DSP/dashboard/FHSSObservationService.cpp:294-297 | disjoint message windows keep all expected starts at least 6500 samples apart |
| `Schedule.ValidNeverOverflows` | examples/DSP/dashboard/FHSSObservationService.cpp:289-293 | a schedule whose windows fit 64 bits expands without an overflow |
| `Compare.CompareDocuments` | examples/DSP/dashboard/FHSSObservationService.cpp:938-1004 | the four lists are the report of verdicts that explain the observations in order: unique nearest free pulse, none, or the exact tied set |
| `Compare.Judge` | examples/DSP/dashboard/FHSSObservationService.cpp:942-977 | one observation gets a match, a tie or nothing exactly as the free compatible pulses dictate |
| `CompareTheorems.ExplanationIsUnique` | examples/DSP/dashboard/FHSSObservationService.cpp:942-1000 | the verdicts are determined by the two documents |
| `CompareTheorems.ReportIsUnique` | examples/DSP/dashboard/FHSSObservationService.cpp:938-1004 | two documents have exactly one report, so the matcher's contract leaves it no choice |
| `CompareTheorems.ObservationsPartition` | examples/DSP/dashboard/FHSSObservationService.cpp:938-1000 | matched, unexpected and ambiguous partition the observed indices, each once |
| `CompareTheorems.ExpectedPartition` | examples/DSP/dashboard/FHSSObservationService.cpp:1001-1004 | matched and missed partition the expected indices, each once |
| `CompareTheorems.MatchesAreSound` | examples/DSP/dashboard/FHSSObservationService.cpp:978-999 | each match has equal channels, a signed distance of at most 64 samples, and the right word agreement |
| `CompareTheorems.MissedIsFarther` | examples/DSP/dashboard/FHSSObservationService.cpp:1001-1004 | a missed pulse is strictly farther from every matched observation of its channel than the partner |
| `CompareTheorems.MissedIsBeyondUnexpected` | examples/DSP/dashboard/FHSSObservationService.cpp:1001-1004 | a missed pulse is out of tolerance of every unexpected observation of its channel |
| `CompareTheorems.MatchesAreAMatching` | examples/DSP/dashboard/FHSSObservationService.cpp:978-999 | the matches are one-to-one |
| `CompareTheorems.SpacedReportIsMaximum` | examples/DSP/dashboard/FHSSObservationService.cpp:938-1000 | on spaced schedules no one-to-one pairing within tolerance is larger than the report's matches |
| `CompareTheorems.ValidScheduleComparesCleanly` | examples/DSP/dashboard/FHSSDashboardConfigurationPolicy.cpp:382-413 | a schedule validated without overlap expands to spaced pulses, so its comparison has no ambiguity and a maximum matching |
| `CompareTheorems.ReceptionIsMatched` | examples/DSP/dashboard/FHSSObservationService.cpp:938-1004 | pulses of a spaced schedule received in any order, each at most 64 samples off on its channel, are all matched to themselves with their offsets and word agreement; exactly the others are missed |
| `CompareTheorems.PerfectReception` | examples/DSP/dashboard/FHSSObservationService.cpp:938-1004 | observing exactly the expected pulses of a validated schedule matches every one with offset zero and agreement, and nothing is left over |
| `Sha256Object.Transform` | examples/DSP/src/FHSSHash.cpp:82-109 | the schedule and round loops compute the compression function of section 6.2.2 of FIPS 180-4 |
| `Sha256Object.Sha256Hasher.Update` | examples/DSP/src/FHSSHash.cpp:67-80 | appends to the message, or refuses unchanged after `Finish` and exactly when the bit count would leave 64 bits |
| `Sha256Object.Sha256Hasher.Finish` | examples/DSP/src/FHSSHash.cpp:111-127 | returns the fold over the padded message of all updates, once |
| `Sha256Object.Sha256` | examples/DSP/src/FHSSHash.cpp:195-199 | the one-shot digest is the SHA-256 of the bytes, refused exactly from 2^64 bits on |
| `Sha256Object.LocalSha256` | examples/DSP/dashboard/FHSSObservationService.cpp:37-63 | the observation service's copy agrees with SHA-256 below 2^64 bits and hashes under a wrapped length above |
| `Sha512Object.Sha512Hasher.Update` | examples/DSP/src/FHSSHash.cpp:129-144 | appends to the message and keeps the high/low pair equal to the bit count modulo 2^128 |
| `Sha512Object.Sha512Hasher.Finish` | examples/DSP/src/FHSSHash.cpp:174-193 | returns the fold over the padded message of all updates, once |
| `Sha512Object.Transform` | examples/DSP/src/FHSSHash.cpp:146-172 | the schedule and round loops compute the compression function of section 6.4.2 of FIPS 180-4 |
| `Sha512Object.Sha512` | examples/DSP/src/FHSSHash.cpp:201-205 | the one-shot digest is the SHA-512 of the bytes |
| `Padding.CountIsExact` | examples/DSP/src/FHSSHash.cpp:132-136 | adding a byte count to the counter pair adds eight times it modulo 2^128 |
| `Sha256Constants.RoundConstants` | examples/DSP/src/FHSSHash.cpp:12-25 | the round constants are the leading fractional bits of the cube roots of the listed primes, by integer inequalities |
| `Sha256Constants.InitialWords` | examples/DSP/src/FHSSHash.hpp:19-22 | the initial words are those of the square roots of the first eight primes |
| `Sha512Constants.RoundConstants` | examples/DSP/src/FHSSHash.cpp:27-54 | likewise for the eighty constants of SHA-512 |
| `Sha512Constants.InitialWords` | examples/DSP/src/FHSSHash.hpp:36-40 | likewise for its initial words |
| `Padding.ZeroCountIsLeast` | examples/DSP/src/FHSSHash.cpp:116-122 | the zero bytes written are the only count below a block that fills the last block |
| `Padding.BigEndianValue` | examples/DSP/src/FHSSHash.cpp:123-124 | the length bytes spell the bit count, modulo what fits |
| `FileHash.HashFd` | examples/DSP/dashboard/FHSSInvestigationBundleService.cpp:344-374 | however reads and interruptions cut a file, digests that are returned are those of its content; an undisturbed call refuses exactly beyond the limit or the SHA-256 length, and each other failure names its cause |
| `CommitFiles.Directory.CommitOutputFiles` | examples/DSP/src/FHSSIqOutputTransaction.hpp:25-72 | succeeds exactly when no step fails and otherwise commits exactly as many renames as disk and trouble allow; on success every target holds its temporary's content, temporaries and backups are gone and nothing else changed; on failure everything else is as before, and the overwritten targets of an unforced call are missing |
| `CommitFiles.LosesAFileIff` | examples/DSP/src/FHSSIqOutputTransaction.hpp:31-71 | some failure point makes the call lose a file if and only if it is unforced and an existing target comes before the first rename that the disk refuses |
| `CommitFiles.RenamesReach` | examples/DSP/src/FHSSIqOutputTransaction.hpp:46-52 | the rename loop passes an output if and only if no refused or failing rename and no throwing hook comes first |
| `CommitFiles.UnforcedOverwriteLosesTheFile` | examples/DSP/src/FHSSIqOutputTransaction.hpp:46-61 | a concrete unforced call over an existing file whose hook throws leaves the target missing |
| `CommitFiles.Directory.RollBack` | examples/DSP/src/FHSSIqOutputTransaction.hpp:58-71 | the catch block undoes any partial backup and commit |
| `Policy.StripAt` | examples/DSP/dashboard/FHSSDashboardConfigurationPolicy.cpp:78-98 | stripping commutes with lookup at every path: values behind a forbidden key disappear, every other value is the stripped original |
| `Policy.StripCleans` | examples/DSP/dashboard/FHSSDashboardConfigurationPolicy.cpp:78-98 | no forbidden key remains at any depth |
| `Policy.StripIsIdempotent` | examples/DSP/dashboard/FHSSDashboardConfigurationPolicy.cpp:78-98 | stripping twice is stripping once |
| `Policy.NonInterference` | examples/DSP/dashboard/FHSSDashboardConfigurationPolicy.cpp:149-195 | scenarios with the same preamble projection and the same five receiver fields give the same receiver graph |
| `PolicyGraph.EffectiveGraph` | examples/DSP/dashboard/FHSSDashboardConfigurationPolicy.cpp:149-195 | key by key, the effective graph is the template with the scenario's five receiver fields in its first source node, the preamble in its listeners, generator truth removed there and in the channelizer, and the derived values on top; every other node and field is the template's |
| `PolicyGraph.ReceiverGraph` | examples/DSP/dashboard/FHSSDashboardConfigurationPolicy.cpp:482-495 | key by key, the receiver's graph is the stripped template with those fields and that preamble; nothing else of the scenario reaches it and nothing else of the template is lost |
| `PolicyGraph.NoTruthAtAnyPath` | examples/DSP/dashboard/FHSSDashboardConfigurationPolicy.cpp:78-98 | no path in the receiver's graph passes one of the seven truth keys |
| `Policy.PreambleOfScenario` | examples/DSP/dashboard/FHSSDashboardConfigurationPolicy.cpp:48-65 | on a well-typed scenario the JSON preamble projection is the one that validation uses |
| `Policy.ActiveSetOfTones` | examples/DSP/dashboard/FHSSDashboardConfigurationPolicy.cpp:67-76 | the JSON active set is the validated active set, in order |
| `Policy.ReceiverGraphIsClean` | examples/DSP/dashboard/FHSSDashboardConfigurationPolicy.cpp:482-495 | the receiver graph carries no forbidden key at any depth, whatever it was derived from |
| `Policy.FindNodeSpec` | examples/DSP/dashboard/FHSSDashboardConfigurationPolicy.cpp:24-33 | the node search returns the first node with the id |
| `RuntimeOwner.ExecutionsNeverOverlap` | examples/DSP/dashboard/FHSSGraphRuntimeOwner.cpp:54-276 | over every run, stop timeouts and failed reconstructions included, at most one execution thread is active |
| `RuntimeOwner.ExecutedAtMostOnce` | examples/DSP/dashboard/FHSSGraphRuntimeOwner.cpp:150-170 | no executor instance is executed twice |
| `RuntimeOwner.ExecutesCurrentGeneration` | examples/DSP/dashboard/FHSSGraphRuntimeOwner.cpp:136-212 | an execution begins only with the executor and generation current at that moment |
| `RuntimeOwner.OwnerHoldsItsLastBuild` | examples/DSP/dashboard/FHSSGraphRuntimeOwner.cpp:54-170 | over every run the owner's generation is that of the last rebuild that succeeded, and its executor was created by it or by a start that replaced a used one since; there is no executor before |
| `RuntimeOwner.ExecutesItsOwnBuild` | examples/DSP/dashboard/FHSSGraphRuntimeOwner.cpp:54-212 | every execution runs an executor made by the last successful rebuild, which asked for exactly that generation, or by a start's replacement of it |
| `RuntimeOwner.GenerationIsStableWhileActive` | examples/DSP/dashboard/FHSSGraphRuntimeOwner.cpp:54-66 | no rebuild changes generation or executor under an active execution |
| `RuntimeOwner.ValidateReceiverInputAttempt` | examples/DSP/dashboard/FHSSGraphRuntimeOwner.cpp:14-40 | passes exactly when the selected samples lie in the unchanged, aligned file and within the read limit |
| `RuntimeOwner.SelectedIsGreatest` | examples/DSP/dashboard/FHSSGraphRuntimeOwner.cpp:14-40 | the selection is the most that the file holds after its first sample and the request allows |
| `RuntimeOwner.Owner.Rebuild` | examples/DSP/dashboard/FHSSGraphRuntimeOwner.cpp:54-134 | takes the rebuild step; refused exactly while an execution is active, successful exactly when it then builds, and otherwise executor, generation and use are as before |
| `RuntimeOwner.Owner.Start` | examples/DSP/dashboard/FHSSGraphRuntimeOwner.cpp:136-233 | takes the start step; accepted if and only if the generation is current, nothing is active, a used executor could be replaced and the launch did not throw; mismatch and active replies are exact too |
| `RuntimeOwner.Owner.Stop` | examples/DSP/dashboard/FHSSGraphRuntimeOwner.cpp:235-276 | takes the stop or shutdown step; times out exactly while the current execution is unfinished, and then changes nothing |

## Left out

- Request parsing in both `Submit` methods: JSON shapes, token syntax and timeouts are checked before the modelled part and only refuse more requests.
- Job and operation identifiers: sequence numbers stand for the hashed identifiers, which presumes that the truncated digests do not collide.
- The directory of an evicted job, event sinks, listings and JSON renderings: no decision depends on them.
- BundleFormat.ValidateBundle: schema validation and the field-by-field agreement of the documents with one another are not modelled; they only reject more. The recording's own identity is taken once, and interruptions of the hashing belong to `HashFd`.
- BundleFormat.Export: re-checks of file identity while copying and injected faults are not modelled, the schema checks of the stored documents are not part of this model, the provenance, action and build records are supplied as documents, the edits of the metadata after its validation, which change nothing, are not represented, and the repeated `add_json` calls are one loop over their list.
- BundleFormat.ExportedIsAcceptable: what schema checks, document agreement and replay require beyond the modelled checks is not claimed, and a referenced recording must be left in place after the export.
- CommitFiles.Directory.CommitOutputFiles: outputs whose paths coincide, backup names already in use, symbolic links, nonempty folders and failures inside the rollback, which the source ignores, are not modelled.
- Schedule.ExpectedTruth: the duration and role of a listed pulse and the separate list of messages are not represented.
- Schedule.Validate: the generator's own configuration checks and the types of JSON members are not modelled, and errors are grouped by check rather than by message. What is reported about overlaps beside other errors is not stated.
- Policy.NonInterference: type errors that the JSON library throws on malformed templates or scenarios are not modelled.
- MetalSessionObject.MetalSession.EnqueueTransfer: events are not represented; a command buffer whose device allocation was released before it ran copies nothing.
- AccelSteps.MetalRefinesCpu: identifiers are supplied by the caller, because the two sessions draw different numbers of them from the shared counter; error categories are not compared.
- RuntimeOwner.Owner.Start: the polling loop that delays the reply is not represented.
- FileHash.HashFd: the limit is at least one chunk, as at every call, so the unsigned subtraction cannot wrap.
- Sha256Constants.RoundConstants: the primes are listed, and that they are the first ones is not proved; likewise for `Sha512Constants.RoundConstants`.
- Hexadecimal rendering of digests: a fixed-width rendering of the returned words.
- The second SHA-256 class: it differs from the first in the `finished` and overflow checks only, so one class with a flag stands for both.
- The signal pipeline, spectrum code, CUDA provider, plugins, HTTP handlers and command-line programs: not part of this model.
