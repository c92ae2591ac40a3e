# Downpeed download engine: a verified model

This project models the download engine of Downpeed (the Go code under `backend/internal`) and proves what
it promises: nothing torn or spliced is ever published, the scheduler neither loses nor overcommits work,
a restart repairs what a crash left, a torrent file is validated against a grammar, and the smaller loops
compute what they are for. `dafny verify dfyconfig.toml` checks everything.

## How it is organised

| file | what it models |
|---|---|
| `Basics.dfy`, `Sequences.dfy`, `Sorting.dfy`, `Decimals.dfy` | shared types, facts about sequences, sorting, decimal numerals |
| `Checkpoint.dfy` | segmented-transfer checkpoints and their validation in 64-bit arithmetic |
| `Tasks.dfy` | tasks, requests, stored records, the two files of a task, and the record updates shared by the scheduler and the transfer protocol |
| `Recovery.dfy` | what a restart makes of a stored record and the files it finds |
| `Transfer.dfy` | one HTTP download as a protocol of small steps: manager, transfer goroutine, segment workers, network, crash and restart |
| `TransferSafety.dfy`, `TransferTheorems.dfy` | the protocol's invariant and its main results |
| `Completion.dfy` | transfers that succeed: from every start an honest server can bring the whole version, and exactly which queued tasks it cannot help |
| `TransferOutcomes.dfy` | what each step of the protocol is for, told by its outcome: answers, cleanup, pause, cancellation, deletion, retries, reports, shutdown, crash |
| `Stopping.dfy` | pauses, cancellations and shutdowns come to their end, wherever the transfer is |
| `WrongSizes.dfy` | tasks that use segments and were created with a wrong size |
| `TransferLimits.dfy`, `TransferSizes.dfy` | the runs that tear a file, for every world, version and cut, and the exact conditions under which there is such a run |
| `OwnRanges.dfy` | tasks with a Range among their own headers: how a part is taken for the whole, and exactly when |
| `SegmentWorker.dfy` | one segment worker as loops over the shared file and the shared checkpoint, and its loop as a run of the protocol |
| `ContentRanges.dfy` | the Content-Range header on the wire |
| `Scheduler.dfy`, `SchedulerSafety.dfy`, `SchedulerTheorems.dfy` | the scheduler as a state machine and its results |
| `SchedulerOutcomes.dfy` | what the scheduler does for the user: nobody waits for a free slot, and how tasks end, are retried, paused, resumed and planned |
| `SchedulerOrder.dfy` | first come, first served, over whole runs of the scheduler |
| `SchedulerManager.dfy` | the manager as an object updated in place, each method proved to be one step of that machine |
| `Agreement.dfy` | scheduler actions are steps of the transfer protocol of each task, and transfer steps are reports to the scheduler, before and during a shutdown |
| `Engine.dfy` | the whole engine: the scheduler, and for every task its protocol with its files, record, remote side and headers, through crashes and restarts |
| `Bencode.dfy`, `BencodeProofs.dfy`, `BencodeValidator.dfy` | the bencode grammar with its limits, the cursor as a function, and the cursor as an object |
| `Limiter.dfy` | the token bucket, alone and under any number of waiters and rate changes |
| `FileNames.dfy` | the search for a free file name and the exclusiveness of paths |
| `Dependencies.dfy`, `TorrentFiles.dfy` | dependency reachability; file lists and selections of torrents |

## How to read the transfer results

A *world* gives the bytes of every version of the remote resource. A step of the protocol is one locked
section of the manager, one system call on a file, or one network event; steps interleave freely, the
resource may change version between any two of them, and the engine may crash between any two of them. Where
one section changes a file and then the store, a crash in between is a step of its own (`CrashInExit`) or the
case in which the store fails, followed by a crash. The results assume:

- the server is *honest* (`TransferProtocol.Honest`): it honours conditional and range requests or at least
  sends its true validator, as sections 8.8, 13.1, 14.2, 14.4 and 15.3.7 of RFC 9110 ask; a length it states is right;
- validators are strong: one value never names two versions;
- there is no Range among the task's own headers, except where a result names it (`LeadsWith`, `ReachedWith`);
- nobody else writes the two paths of a task; `FileNames` proves when this holds between the engine's own tasks.

The headers of a task never change, so a Range among them is a parameter of its runs. Nothing is assumed about
the size given at creation unless a result says so: `SegmentSizeRight` (exact where it allows segments) or
`SizeGivenRight` (moreover not below that of the version). Whatever it was, a published file begins with bytes of
one version (`NothingSpliced`), and no run the manager starts is refused by the downloader's own checks
(`StartedRunsAreAccepted`).

Whether a file can be *torn* (published although it is not one whole version) is decided as follows.

- With a size that is not too small and responses that state their length or mark its end, never (`NothingTorn`).
- With any honest responses, a task created with a validator and its size publishes one whole version or nothing
  on every run on which the size is still known whenever the task is resumed, retried by hand or restored
  (`KnownSizesArePublishedWhole`).
- But a response without a length overwrites the known total with -1, so a resume finds it forgotten. A queued
  single-connection task with a validator that misses bytes can be torn by going on from there exactly if its
  request knows no size (`QueuedTaskTearsExactlyWhenForgotten`): the server sends no length, and the connection
  is cut where the end of the body is not marked. Every task that does not use segments can be led there from its
  creation, for every version and every cut (`ForgottenSizeTearsTheFile`); so of the tasks with a validator,
  whatever size they were given, exactly those that use segments are safe on all honest runs
  (`SafeExactlyWithSegments`).
- A wrong size given at creation: with a validator, and responses that vouch for every length, it can tear the
  file exactly if it is positive, too small, and the task does not use segments (`TooSmallSizesTearExactly`).
  A segmented task with a wrong size never publishes (`WrongSizeStopsSegments`), and without a validator no
  size tears anything (`NoValidatorNoTear`).
- A Range among the task's own headers is sent with the first request, whose 2xx answer is taken
  for the whole.
  Even if every length is stated, such a task can be torn, and exactly if it does not use segments and the Range asks
  for a proper part whose length is the given size, or the size is unknown (`OwnRangesTearExactly`). A Range that
  begins elsewhere moreover lets two places of a version be spliced, even with a right size and with every length
  vouched for (`OwnRangeSplices`). Segments are not affected (`SegmentsAreSafeWithAnyRange`).

That a file is never torn would also hold of an engine that refuses everything, so `Completion.dfy` proves the other
half: from every state in which a run starts, with segments or with a right or unknown size, honest answers (with their
length or without it, naming the version or not) lead to the whole version in the destination. There is one exception: a
single connection that already has every byte and does not know the size asks for a range that no server can satisfy
(`QueuedTaskCompletesExactly`). A run that is to be stopped can always stop, without any server (`OperationsFinish`).

What a crash in the middle of a single-connection body costs a task with a validator is exact too
(`CrashesKeepTheBytes`): nothing, unless the task learned on the way that its file has 1 MiB or more, from a server that
accepts ranges. The restart then takes it for a segmented task without a checkpoint, removes the partial file, and fails
the task if any progress was stored.

`Engine.dfy` puts this together: in every state the engine can reach, with any number of tasks, transfers, crashes and
restarts, the life of each task is an honest run of the protocol, so all of these results hold of every task.

Where the code and its comments differ, the code is followed: a pause between a response header and its
first report drops that report, a resume that cannot be stored leaves the task paused but forgets its
failure and its plan (`UnsavedResume`), and a manual retry does not look at the other tasks' paths
(`RetryKeepsExclusive`, `RetryCanShareThePath`).

## Model

| member | source | states |
|---|---|---|
| `TransferTheorems.NothingSpliced` | backend/internal/protocol/http/downloader.go:203-272 | over every honest run with crashes anywhere, and for every size given at creation, a destination holds bytes of exactly one version from its start, and all of them whenever a right length vouched for the end |
| `TransferTheorems.NothingTorn` | backend/internal/protocol/http/downloader.go:168-184 | if every response states its length or marks the end of the representation, and the size is unknown or not too small, the destination is absent or exactly one whole version |
| `TransferSizes.KnownSizesArePublishedWhole` | backend/internal/protocol/http/downloader.go:234-247 | with a validator and a size, and nothing asked of lengths and connections: the destination is absent or one whole version on every honest run on which the size is known whenever the task is taken up again |
| `TransferTheorems.SegmentedTasksPublishTheirVersion` | backend/internal/protocol/http/segmented_downloader.go:88-189 | a task created for segments publishes the whole version its validator names, or nothing, whatever size it was given, whatever lengths are stated and wherever connections are cut; that it can always do so is `Completion.SegmentedTransferCompletes` |
| `Completion.SegmentedTransferCompletes` | backend/internal/protocol/http/segmented_downloader.go:34-189 | from every state in which a segmented run starts, whatever its checkpoint holds, an honest server can answer every worker in any manner (length stated or not, version named or not) so that the run ends with the whole version and the task completed |
| `Completion.HonestSegmentIsTaken` | backend/internal/protocol/http/segmented_downloader.go:216-244 | of one step: an honest 206 for exactly the rest of a segment, with the length of that rest or none, is taken by the worker |
| `Completion.SingleTransferCompletes` | backend/internal/protocol/http/downloader.go:121-247 | from every state in which a single-connection run starts with a right or unknown size, unless it has all bytes and does not know that, honest answers lead to the whole version |
| `Completion.HonestAnswerIsTaken` | backend/internal/protocol/http/downloader.go:139-184 | of one step: an honest answer with the whole version, or with exactly what is missing, is taken, with every way to state or omit length and total |
| `Completion.QueuedTaskCompletesExactly` | backend/internal/protocol/http/downloader.go:107-168 | a queued task with a validator, and with a right or unknown size unless it uses segments, can complete the whole version by going on, if and only if it uses segments, misses a byte, has none yet, or knows its size |
| `TransferTheorems.EarlyEndsArePublishedExactly` | backend/internal/protocol/http/downloader.go:234-247 | of one step: a body that ends too early is published exactly if its end is not detectable, no total was stated and no size (or just this one) is expected; the rows around it state what follows over runs |
| `TransferSizes.QueuedTaskTearsExactlyWhenForgotten` | backend/internal/protocol/http/downloader.go:234-247 | from a queued single-connection task that misses bytes there is an honest run that goes on and tears the file, if and only if the request knows no size |
| `TransferLimits.ForgottenSizeTears` | backend/internal/protocol/http/downloader.go:234-247 | from every such task, any further part of the version can be published as the whole |
| `TransferLimits.ForgottenSizeTearsTheFile` | backend/internal/download/manager.go:932-941 | for every world, version, cut and right size: an honest run from the creation of any task without segments forgets the size and publishes the part |
| `TransferSizes.SafeExactlyWithSegments` | backend/internal/download/manager.go:932-941 | a task with a validator of a version that is not empty, of any given size, is never torn on any honest run, if and only if it uses segments |
| `TransferLimits.TooSmallSizeTearsTheFile` | backend/internal/protocol/http/downloader.go:107-119 | for every version and every smaller size: a run with vouched lengths publishes that many bytes unasked, for any task without segments |
| `TransferSizes.TooSmallSizesTearExactly` | backend/internal/protocol/http/downloader.go:107-119 | over all runs with vouched lengths, a size given at creation can tear the file if and only if it is positive, below the true one, and the task does not use segments |
| `WrongSizes.WrongSizeStopsSegments` | backend/internal/protocol/http/segmented_downloader.go:238-241 | a segmented task whose size is wrong publishes nothing on any honest run, and keeps the invariant of a resource that has that size |
| `TransferSizes.NoValidatorNoTear` | backend/internal/protocol/http/downloader.go:107-119 | without a validator no given size can tear the file with vouched lengths |
| `OwnRanges.OwnRangeTearsTheFile` | backend/internal/protocol/http/downloader.go:125-168 | for every world, version and misleading Range among the task's headers: an honest run that states every length publishes the part as the file |
| `OwnRanges.OwnRangeSplices` | backend/internal/protocol/http/downloader.go:125-131 | for every Range and cut: an honest run with vouched lengths and a right or unknown size publishes a piece of the Range followed by the rest of the version |
| `OwnRanges.OwnRangesTearExactly` | backend/internal/protocol/http/downloader.go:161-184 | over all honest runs with stated lengths, for every size, validator and Range or none: the file can be torn if and only if segments are not used and the Range asks for a proper part that the size does not rule out |
| `OwnRanges.SegmentsAreSafeWithAnyRange` | backend/internal/protocol/http/segmented_downloader.go:211-215 | a task that uses segments does the same with any Range among its headers: every such run is a run without it, and publishes the version or nothing |
| `TransferSafety.StepKeeps` | backend/internal/download/manager.go:908-1002 | every step of manager, transfer, worker, network, crash and restart keeps the invariant of files, memory and store |
| `TransferSafety.RunsKeep` | backend/internal/download/manager.go:908-1002 | so does every run |
| `TransferSafety.CreationEstablishes` | backend/internal/download/manager.go:222-271 | a created task satisfies the invariant |
| `TransferSafety.CrashInExitKeeps` | backend/internal/download/manager.go:946-1001 | a crash between the removal of a work file and the save after it leaves a record that still reads the files rightly |
| `TransferTheorems.StoredCheckpointIsSound` | backend/internal/protocol/http/segmented_downloader.go:91-164 | every stored checkpoint lays out the remote version and, for a work file of its size, counts only bytes that are there |
| `TransferTheorems.WorkerStaysInItsSegment` | backend/internal/protocol/http/segmented_downloader.go:246-274 | a worker changes no byte outside the rest of its own segment |
| `TransferTheorems.PauseKeepsTheLastCheckpoint` | backend/internal/download/manager.go:331-396 | after a pause whose workers stopped, the stored record is the final checkpoint and the file is sound for it |
| `TransferTheorems.StartedRunsAreAccepted` | backend/internal/protocol/http/segmented_downloader.go:34-65 | every run the manager starts, whatever size the task was created with, meets the downloader's entry conditions (offset, work file, checkpoint and If-Range value) and is not refused |
| `TransferTheorems.RestartedTasksResume` | backend/internal/download/manager.go:430-468 | after a restart a paused task can be resumed exactly if it kept nothing or has a validator |
| `TransferTheorems.PublishWindow` | backend/internal/download/persistence.go:168-185 | a crash between the hard link and the stored completion restores to completed exactly if the size is known or the work name still denotes the file |
| `TransferTheorems.PublishedWhilePaused` | backend/internal/protocol/http/downloader.go:256-272 | a transfer that published just as it was paused cannot be resumed, and a restart settles it |
| `Stopping.OperationsFinish` | backend/internal/download/manager.go:370-395 | wherever a run is when it is to be paused, canceled or shut down, steps of the engine alone, without any server, end the operation; pausing and shutting down keep the files, canceling removes the work file, and no destination is touched |
| `TransferOutcomes.NewTasksBegin` | backend/internal/protocol/http/downloader.go:60-87 | a new task reserves its whole file for four segments exactly if the server takes ranges, there is a usable validator and the known size is 1 MiB or more; otherwise it begins with an empty file |
| `TransferOutcomes.AnswersAreClassified` | backend/internal/protocol/http/downloader.go:139-160 | every answer is taken or ends the run, transiently exactly for 408, 429 and 5xx |
| `TransferOutcomes.WrongAnswersAreRefused` | backend/internal/protocol/http/downloader.go:142-184 | an answer of another version, encoded, with the wrong status, range or size ends the run |
| `TransferOutcomes.UnexpectedFilesAreRefused` | backend/internal/protocol/http/downloader.go:54-87 | a run whose files are not as its request says, or whose destination exists, ends before it touches anything |
| `TransferOutcomes.DestinationsAreNotOverwritten` | backend/internal/protocol/http/downloader.go:256-272 | a destination appears exactly if there was none and the link succeeds; an existing one is left alone |
| `TransferOutcomes.PublishedFilesCount` | backend/internal/protocol/http/downloader.go:244-253 | once linked the file is the task's, which completes with its size, whether or not the work name could be removed |
| `TransferOutcomes.FailuresCleanUp` | backend/internal/protocol/http/downloader.go:89-106 | whatever step ends a run without success: told to pause or to shut down it leaves its file as it is, told to cancel it leaves none, failing of itself it leaves what it found; the destination is never touched |
| `TransferOutcomes.StoppedRunsBreakOff` | backend/internal/protocol/http/downloader.go:89-106 | a single-connection run that is told to stop while it talks to the server breaks off: canceled it leaves no work file, paused or shut down it leaves the file as it was |
| `TransferOutcomes.ActiveTasksCanBePaused` | backend/internal/download/manager.go:331-368 | exactly queued, downloading and retrying tasks can be paused, at once in what is stored, with their numbers |
| `TransferOutcomes.PausedTasksResume` | backend/internal/download/manager.go:377-486 | once its run is gone a paused task counts what its files hold, and is resumed from there exactly if it kept nothing or has a validator |
| `TransferOutcomes.UnsavedResumesStayPaused` | backend/internal/download/manager.go:455-486 | a resume that cannot be stored leaves the task paused with its numbers and its record, and can be tried again |
| `TransferOutcomes.UnsavedRetriesAreRolledBack` | backend/internal/download/manager.go:555-581 | a manual retry that cannot be stored is rolled back; at most the work file it would not have used is gone |
| `TransferOutcomes.LastFailuresAreKept` | backend/internal/download/manager.go:979-995 | a failure without a further retry leaves the task failed with its numbers, retryable exactly if the failure was transient |
| `TransferOutcomes.GivenUpTasksRetry` | backend/internal/download/manager.go:488-607 | after the last transient failure a manual retry is accepted, and goes on with the bytes in the file, or from nothing if it used segments or has no validator |
| `TransferOutcomes.PermanentFailuresStay` | backend/internal/download/manager.go:506-508 | after a permanent failure a manual retry is refused |
| `TransferOutcomes.TransientFailuresAreRetried` | backend/internal/download/scheduler.go:218-302 | within the budget a transient failure waits for its moment with the bytes it may keep, and is queued again by its wake-up |
| `TransferOutcomes.CancelingRemovesTheWorkFile` | backend/internal/download/manager.go:609-658 | whatever is not over can be canceled; its work file goes, its destination does not |
| `TransferOutcomes.DeletionSparesFiles` | backend/internal/download/manager.go:660-719 | only what is over is deleted; the destination goes exactly if that was asked for and the task is completed, and the work file is never touched, whether or not the record could be removed |
| `TransferOutcomes.ReportsAreStored` | backend/internal/download/manager.go:932-941 | a report of a running transfer is what the task shows and what is stored |
| `TransferOutcomes.CheckpointsAreStored` | backend/internal/download/manager.go:914-941 | so is the report of a segment worker, with its checkpoint, even while the task is being paused |
| `TransferOutcomes.CountsAreReported` | backend/internal/protocol/http/segmented_downloader.go:91-120 | what a worker wrote is added to its segment only, and its report brings the new sum into the record |
| `TransferOutcomes.EndsOfSegmentsAreStored` | backend/internal/protocol/http/segmented_downloader.go:121-164 | the checkpoint is stored before the first request and after the last worker |
| `TransferOutcomes.LateReportsAreDropped` | backend/internal/download/manager.go:914-918 | a report that comes when the task is not downloading any more (nor paused, with a checkpoint) changes nothing |
| `TransferOutcomes.StoppedRunsLeaveTheirTask` | backend/internal/download/manager.go:948-958 | the run of a task that was stopped meanwhile only goes |
| `TransferOutcomes.PlansSurviveShutdown` | backend/internal/download/manager.go:759-764 | a plan nothing was done for is queued as it was after a shutdown and a start |
| `TransferOutcomes.ShutdownPauses` | backend/internal/download/manager.go:755-807 | a shutdown pauses every other active task, and stores for it what its files hold once its run is gone |
| `TransferOutcomes.CrashesKeepTheBytes` | backend/internal/download/persistence.go:160-237 | a crash in the middle of a single-connection body keeps every byte and the task can be resumed, unless it would be read as segmented; then the partial file is lost, and the task fails exactly if progress was stored |
| `TransferOutcomes.StepsAreStored` | backend/internal/download/persistence.go:257-275 | after every step that saves, the store holds what the manager knows |
| `SegmentWorker.WriteAllAt` | backend/internal/protocol/http/segmented_downloader.go:307-320 | writes all of the value at its place through any short writes, past the end of the file too, unless the system fails or writes nothing; then it reports failure after writing a prefix; it changes nothing else |
| `SegmentWorker.DownloadSegment` | backend/internal/protocol/http/segmented_downloader.go:246-277 | moves a body into the file: only its own segment and counter change, the counted bytes are the first of the body; it succeeds if the body fills the segment exactly and no write fails, and only if the segment is filled exactly |
| `SegmentWorker.SharedProgress.Count` | backend/internal/protocol/http/segmented_downloader.go:91-95 | counting keeps the tiling and every other segment, and the progress of the whole transfer grows by exactly the bytes counted |
| `SegmentWorker.WorkerStaysSound` | backend/internal/protocol/http/segmented_downloader.go:259-264 | with the bytes of one version a worker keeps its segment sound however far it gets |
| `SegmentWorker.WorkersDoNotInterfere` | backend/internal/protocol/http/segmented_downloader.go:127-146 | a worker leaves every other segment of the tiling sound |
| `SegmentWorker.BodyIsProtocolRun` | backend/internal/protocol/http/segmented_downloader.go:246-274 | what the loop does with a body that fits its segment, chunk by chunk, is a run of the write and count steps of the protocol, with the same file and counters |
| `ContentRanges.WrittenHeadersAreRead` | backend/internal/protocol/http/downloader.go:274-300 | a header written for a range is read back as that range, and accepted exactly at its start |
| `ContentRanges.AcceptedHeadersMeanRanges` | backend/internal/protocol/http/downloader.go:274-300 | every accepted header means a range the protocol accepts; the 64-bit length is wrong only for the range of all machine integers |
| `ContentRanges.WrappedLengthIsRefused` | backend/internal/protocol/http/segmented_downloader.go:238-241 | a length that matches the missing bytes is the true length |
| `Checkpoints.ValidateTransferCheckpoint` | backend/internal/download/checkpoint.go:34-62 | accepts exactly the checkpoints whose segments tile the file, with machine integers throughout, and returns the sum |
| `Checkpoints.DownloadedBounds` | backend/internal/download/checkpoint.go:34-62 | the sum lies between 0 and the total and is the total exactly if every segment is complete |
| `Checkpoints.NewTransferCheckpoint` | backend/internal/protocol/http/segmented_downloader.go:285-305 | builds a valid layout that starts from nothing, without overflow |
| `Checkpoints.FreshCheckpointValid` | backend/internal/protocol/http/segmented_downloader.go:285-305 | the layout tiles the file with lengths that differ by at most one |
| `Checkpoints.SegmentsDisjoint` | backend/internal/download/checkpoint.go:47-57 | different segments of a valid checkpoint share no byte |
| `Checkpoints.AdvanceSegment` | backend/internal/protocol/http/segmented_downloader.go:93-95 | counting bytes in one segment keeps the layout and adds exactly that much to the sum |
| `Recovery.ReconcileStoredTask` | backend/internal/download/persistence.go:63-111 | the in-place recovery computes the recovery function, or refuses an unreadable record; what every kind of record must become is stated by the five rows that follow |
| `Recovery.PartialFilesSurvive` | backend/internal/download/persistence.go:201-237 | an interrupted record without a destination: a single connection keeps every byte of its work file, whatever the last stored report counted, exactly unless the file exceeds a known size; with a checkpoint it keeps the checkpoint's sum exactly if that is valid and the file has its size; read as segmented without one it starts over or is lost |
| `Recovery.MissingFilesAreNoticed` | backend/internal/download/persistence.go:191-200 | without a work file an interrupted task starts over exactly if it had nothing |
| `Recovery.FinishedFilesAreRecognised` | backend/internal/download/persistence.go:168-185 | a destination completes an interrupted task exactly if it has the known size, or with no known size is the work file under its second name |
| `Recovery.WhatIsOverStaysOver` | backend/internal/download/persistence.go:94-103 | a task that was over keeps its state, numbers and error; only its work file goes |
| `Recovery.RequestsAreRebuilt` | backend/internal/download/persistence.go:75-109 | the request comes from the record; it uses segments exactly with a kept checkpoint, or with a validator, ranges and 1 MiB or more |
| `Recovery.PlansSurvive` | backend/internal/download/persistence.go:136-158 | an untouched plan in the future stays queued, or fails if its destination exists by now |
| `Recovery.Reconciler.ReconcileInterruptedTask` | backend/internal/download/persistence.go:160-237 | task, request and files after the interrupted case, for which `PartialFilesSurvive`, `MissingFilesAreNoticed` and `FinishedFilesAreRecognised` say what they must be |
| `Recovery.Reconciler.ReconcileScheduledTask` | backend/internal/download/persistence.go:136-158 | when a planned task is settled as it is, as failed, or handed on |
| `Recovery.RecoveryIsIdempotent` | backend/internal/download/persistence.go:63-111 | recovering what was recovered changes no state, progress, total, error or checkpoint |
| `Recovery.RecoveryStopsEverything` | backend/internal/download/persistence.go:136-237 | nothing is downloading or retrying afterwards, and queued exactly if it was an untouched plan in the future |
| `Recovery.RecoveryOnlyRemovesWork` | backend/internal/download/persistence.go:160-237 | recovery never touches the destination and writes nothing |
| `Recovery.RecoveredProgressIsBacked` | backend/internal/download/persistence.go:160-247 | what a recovered task claims is in its files |
| `Recovery.RecoverySettles` | backend/internal/download/persistence.go:63-111 | a recovered record is settled: terminal, paused with backed progress, or an untouched plan |
| `Tasks.ComputeRetryDelay` | backend/internal/download/scheduler.go:246-252 | the doubling loop computes min(base * 2^n, 30 s), or the base when it is longer |
| `Tasks.RetryDelaysDouble` | backend/internal/download/scheduler.go:246-252 | the first delay is the base, each further one is twice the one before up to 30 s, and none is shorter than the base |
| `SchedulerTheorems.ManagerInvariant` | backend/internal/download/manager.go:331-1001 | in every state reachable from a start or a restore: the queue is duplicate-free and holds exactly the queued tasks, a downloading task has one run, any other run belongs to an operation that waits for it, a retrying task holds no slot and will be woken |
| `SchedulerTheorems.ShutdownInvariant` | backend/internal/download/manager.go:742-818 | in every state reachable after a shutdown began: queue and timer are empty, nothing downloads or waits for a retry, and what still runs belongs to paused tasks |
| `SchedulerTheorems.StepKeeps` | backend/internal/download/manager.go:908-1002 | every action keeps the invariant, before a shutdown and during it |
| `SchedulerTheorems.StartsWell` | backend/internal/download/persistence.go:13-61 | a new manager and every restored one satisfy it |
| `SchedulerTheorems.EnqueueKeepsOrder` | backend/internal/download/scheduler.go:108-121 | enqueuing puts the task last, once, and keeps the order of every two others, whether or not the task was queued before |
| `SchedulerSafety.FillStartsFirstDue` | backend/internal/download/scheduler.go:123-167 | a fill starts exactly the first due tasks in queue order, as many as there are free slots |
| `SchedulerSafety.FillKeepsDueOrder` | backend/internal/download/scheduler.go:123-167 | what it starts followed by what stays due is what was due, in order |
| `SchedulerSafety.FillLosesNothing` | backend/internal/download/scheduler.go:130-164 | each queued task is started or still queued, once, and none starts before its plan |
| `SchedulerSafety.FillConservesWork` | backend/internal/download/scheduler.go:123-167 | after a fill every slot is taken or nothing due is queued |
| `SchedulerSafety.TimerIsEarliestPlan` | backend/internal/download/scheduler.go:169-201 | the timer is armed exactly if a planned task is queued, at the earliest plan, with the current generation |
| `SchedulerTheorems.TimersAge` | backend/internal/download/scheduler.go:169-201 | over any run the generation never shrinks, and a timer that changed has a larger one |
| `SchedulerTheorems.StaleWakeIsIgnored` | backend/internal/download/scheduler.go:203-216 | once an armed timer was stopped or replaced, its callback changes nothing, whatever happened since |
| `SchedulerOutcomes.WakesAndSettingsFill` | backend/internal/download/scheduler.go:92-216 | a wake-up of the current generation, and new settings with their new limit, start exactly the first due tasks for the free slots; afterwards nobody due waits for a free slot, and a newer timer stands at the earliest plan left, if any |
| `SchedulerOutcomes.NobodyWaitsForAFreeSlot` | backend/internal/download/scheduler.go:123-167 | so does every action that may make a task due or a slot free |
| `SchedulerTheorems.ConcurrencyBound` | backend/internal/download/scheduler.go:130-164 | no action leaves more runs than the larger of those before and the limit in force |
| `SchedulerTheorems.ConstantLimitHolds` | backend/internal/download/scheduler.go:92-106 | with a constant limit the runs never exceed it |
| `SchedulerTheorems.SettingsEndNoRun` | backend/internal/download/scheduler.go:92-106 | lowering the limit ends no run and starts none while the limit is reached |
| `SchedulerTheorems.LimitChange` | backend/internal/download/scheduler.go:92-106 | only the settings change the limits |
| `SchedulerTheorems.NothingStartsEarly` | backend/internal/download/scheduler.go:138-141 | whatever action starts a run, the task stood in the queue when the slots were filled, and its planned time had come |
| `SchedulerOrder.NoOvertaking` | backend/internal/download/scheduler.go:108-167 | over any run on which a due task stays queued, nobody who did not stand before it is started, through any pauses, resumes, retries and new tasks |
| `SchedulerTheorems.StepSpends` | backend/internal/download/manager.go:959-997 | without the user, every action spends a measure of states and remaining retries |
| `SchedulerTheorems.RetriesAreBounded` | backend/internal/download/scheduler.go:218-267 | over any run without the user, the starts of a task plus its remaining transfers never exceed what it had |
| `SchedulerTheorems.UserGivesBudget` | backend/internal/download/manager.go:459-481 | a stored creation, resume or retry gives exactly the retry budget plus one |
| `SchedulerTheorems.TransfersAreBounded` | backend/internal/download/scheduler.go:218-267 | from a creation, resume or retry on, until the user takes the task up again or changes the budget, it is started at most once more than the budget allows retries |
| `SchedulerTheorems.RetryWaitsForItsMoment` | backend/internal/download/scheduler.go:277-311 | a retrying task returns to the queue only by its own wake-up, not before its moment |
| `SchedulerTheorems.TransientFailureIsPlanned` | backend/internal/download/scheduler.go:218-267 | a transient failure within the budget frees the slot and is planned after the capped exponential delay |
| `SchedulerOutcomes.RunsEnd` | backend/internal/download/manager.go:959-1001 | a run that leaves: its task is completed with its size, canceled, retrying, or failed with its progress and retryable exactly after a transient failure; its slot is free, and nobody waits for it |
| `SchedulerOutcomes.GivenUpTasksAreRetried` | backend/internal/download/manager.go:488-581 | exit and manual retry in sequence, the budget being spent: accepted exactly if the run failed transiently and the files can be used, and then queued or started with what it may keep and a full budget |
| `SchedulerOutcomes.RetryableTasksAreRetried` | backend/internal/download/manager.go:488-581 | a manual retry is accepted exactly for a failed task whose error is retryable and whose files can be used |
| `SchedulerOutcomes.RetriesGetTheirTurn` | backend/internal/download/scheduler.go:277-311 | a retry whose moment has come queues or starts its task, with its numbers |
| `SchedulerOutcomes.StaleRetriesAreIgnored` | backend/internal/download/scheduler.go:287-296 | a wake-up for a retry that is not wanted any more changes nothing |
| `SchedulerOutcomes.PauseTakesOut` | backend/internal/download/manager.go:331-363 | exactly active tasks can be paused; the task leaves the queue with its numbers, the others stay as they are, and the timer fits the rest |
| `SchedulerOutcomes.CancelTakesOut` | backend/internal/download/manager.go:609-643 | exactly what is not over can be canceled, with the same care for the others |
| `SchedulerOutcomes.DeletionsTakeOut` | backend/internal/download/manager.go:660-719 | exactly what is over can be deleted; it alone is gone then, and nothing has changed if the store refused |
| `SchedulerOutcomes.StoppedRunsLeave` | backend/internal/download/manager.go:948-957 | a run whose task was stopped gives its slot free, and nobody waits for it |
| `SchedulerOutcomes.RefusedSavesAreUndone` | backend/internal/download/manager.go:173-581 | a creation or a retry the store refuses leaves no trace, a resume leaves the task paused with its numbers |
| `SchedulerOutcomes.CloseKeepsPlans` | backend/internal/download/manager.go:742-778 | a shutdown pauses every active task with its numbers, except plans in the future nothing was done for, which it leaves as they are |
| `SchedulerOutcomes.CreatedTasksGetTheirTurn` | backend/internal/download/manager.go:173-282 | a creation is accepted exactly for a sensible size and a plan that lies ahead; the task is started or queued, and nobody waits for a free slot |
| `SchedulerOutcomes.PausedTasksAreResumed` | backend/internal/download/manager.go:398-486 | a resume is accepted exactly if the file holds what the task counts and it has a validator unless that is nothing; it goes on from there with a full budget |
| `SchedulerOutcomes.RestoredPlansAreArmed` | backend/internal/download/persistence.go:13-61 | after a start nothing runs, and the timer stands at the earliest plan that was kept |
| `SchedulerManager.Manager.RemoveFromQueueLocked` | backend/internal/download/scheduler.go:113-121 | the index loop removes every occurrence and keeps the order |
| `SchedulerManager.Manager.RefreshScheduleTimerLocked` | backend/internal/download/scheduler.go:172-201 | the scan over the queue arms the timer at the earliest plan, under a new generation, or leaves it off |
| `SchedulerManager.Manager.FillAvailableSlotsLocked` | backend/internal/download/scheduler.go:123-167 | the popping loop is the fill of the specification and keeps the invariant |
| `SchedulerManager.Manager.Create` | backend/internal/download/manager.go:173-282 | accepted or refused exactly as the machine's creation, under a number no task has, with the state of that step and the invariant kept; a failed save leaves no trace |
| `SchedulerManager.Manager.Pause` | backend/internal/download/manager.go:331-368 | accepted or refused exactly as the machine's pause; a refusal changes nothing, and the invariant is kept |
| `SchedulerManager.Manager.FinishPause` | backend/internal/download/manager.go:377-395 | once the run is gone, the task counts what its files hold, or keeps its number if they do not fit; the invariant is kept |
| `SchedulerManager.Manager.Resume` | backend/internal/download/manager.go:398-486 | accepted exactly if files, offset and validator allow it; the state is that of the machine in the saved and the unsaved case |
| `SchedulerManager.Manager.Retry` | backend/internal/download/manager.go:488-581 | accepted exactly for a retryable failure with usable files; a failed save rolls task and request back |
| `SchedulerManager.Manager.Cancel` | backend/internal/download/manager.go:609-643 | accepted or refused exactly as the machine's cancellation, with its whole new state and the invariant kept |
| `SchedulerManager.Manager.Delete` | backend/internal/download/manager.go:660-719 | only a task that is over is removed, from tasks, requests and queue; it stays if the store fails; the invariant is kept |
| `SchedulerManager.Manager.ApplySchedulerSettings` | backend/internal/download/scheduler.go:92-106 | the new limits are in force in the fill that follows, and the invariant is kept; a closed manager ignores them |
| `SchedulerManager.Manager.WakeScheduledTasks` | backend/internal/download/scheduler.go:203-216 | is the wake-up of the machine: one of the current generation fills (`SchedulerOutcomes.WakesAndSettingsFill`), an older one changes nothing |
| `SchedulerManager.Manager.ReportProgress` | backend/internal/download/manager.go:910-944 | takes a report exactly if the machine does (state, run and checkpoint), and changes nothing otherwise |
| `SchedulerManager.Manager.ScheduleRetryLocked` | backend/internal/download/scheduler.go:218-267 | within the budget the task, its request and the sleeping retry are those of the machine's transient ending; otherwise nothing changes |
| `SchedulerManager.Manager.ExitRun` | backend/internal/download/manager.go:946-1001 | the exit section, with each way to end, and the fill after it are one step of the machine, whose outcomes `SchedulerOutcomes.RunsEnd` states; the invariant is kept |
| `SchedulerManager.Manager.WaitForRetry` | backend/internal/download/scheduler.go:277-311 | the wake-up requeues the task exactly if it still waits for this moment |
| `SchedulerManager.Manager.Restore` | backend/internal/download/persistence.go:13-61 | the loop over the store ends in the restored state, which satisfies the invariant, or refuses exactly if a record is unreadable or stored twice |
| `SchedulerManager.Manager.Close` | backend/internal/download/manager.go:742-778 | the loop over all tasks pauses what is active except plans that never started, and empties queue and timer |
| `SchedulerManager.Manager.FinishClose` | backend/internal/download/manager.go:786-808 | the loop over all tasks gives each paused one the progress its files hold |
| `Agreement.ActionsAreSteps` | backend/internal/download/manager.go:331-1001 | every action after which a task goes on is, for that task, an honest run of at most two steps of its protocol (its own step and the start of its run), for open and closed managers, whether or not the store takes what is saved |
| `Agreement.UpdateAgrees` | backend/internal/download/manager.go:331-818 | pause, resume, retry, cancel, exit, delayed retry and the begin of a shutdown change task and request as the protocol says, and no other task |
| `Agreement.FillAgrees` | backend/internal/download/scheduler.go:148-162 | a fill is the start step for what it starts and nothing for the rest |
| `Agreement.ReportAgrees` | backend/internal/download/manager.go:910-944 | a report changes task and request as the protocol delivers it |
| `Agreement.TransferStepsAreReports` | backend/internal/download/manager.go:908-944 | every step of a transfer is the progress action with what it reports, or leaves what the scheduler knows as it is; during a shutdown too |
| `Agreement.SignalAgrees` | backend/internal/download/manager.go:370-371 | telling a run to stop changes nothing the scheduler knows |
| `Agreement.CreationAgrees` | backend/internal/download/manager.go:222-271 | a created task begins as its protocol begins |
| `Agreement.DeletionAgrees` | backend/internal/download/manager.go:660-719 | a deleted task is gone in both models, and stays in both if the store fails; its files are the subject of `TransferOutcomes.DeletionSparesFiles` |
| `Agreement.ShutdownAgrees` | backend/internal/download/manager.go:786-808 | the last section of a shutdown stores for a paused task what its protocol stores, if the store takes it, and nothing for the others |
| `Agreement.RestoreAgrees` | backend/internal/download/persistence.go:35-55 | a restored task begins as the restart step leaves it |
| `Engine.MoveKeeps` | backend/internal/download/manager.go:331-1001 | every section of the manager, step of a transfer, crash and restart of the engine keeps scheduler and protocols of all tasks in agreement |
| `Engine.EveryTaskLivesItsProtocol` | backend/internal/download/manager.go:331-1001 | in every reachable state of the engine, the scheduler knows exactly the living tasks, and each one's life is an honest run of the transfer protocol from its creation, that ends in what the scheduler knows of it |
| `Engine.EveryFileIsOneVersion` | backend/internal/protocol/http/downloader.go:203-272 | so every published file of every task begins with bytes of one version, and with segments is the version its validator names |
| `BencodeValidator.ValidateBencode` | backend/internal/protocol/bt/resolver.go:275-284 | accepts exactly the spellings of trees within the limits |
| `BencodeValidator.Validator.Value` | backend/internal/protocol/bt/resolver.go:286-329 | the recursive method reads what the reading function reads, ends right after it and never leaves the data |
| `BencodeValidator.Validator.IntegerValue` | backend/internal/protocol/bt/resolver.go:331-349 | the scanner accepts exactly the integers the reading function accepts and ends right after the end token |
| `BencodeValidator.Validator.StringValue` | backend/internal/protocol/bt/resolver.go:351-374 | the scanner returns exactly the bytes the length announces, and fails where the reading function fails |
| `BencodeProofs.IntegerTexts` | backend/internal/protocol/bt/resolver.go:340-346 | the accepted integer texts are the decimals of 64-bit numbers and the plus-signed ones |
| `BencodeProofs.ReadValueComplete` | backend/internal/protocol/bt/resolver.go:286-382 | wherever a fitting tree is spelled, the cursor reads it and stops right after it |
| `BencodeProofs.ReadValueSound` | backend/internal/protocol/bt/resolver.go:286-382 | whatever the cursor reads is spelled there, fits the limits and is counted right |
| `BencodeProofs.RoundTrip` | backend/internal/protocol/bt/resolver.go:275-382 | the spelling of a tree, followed by anything, is read back as that tree |
| `BencodeProofs.SpellingsArePrefixFree` | backend/internal/protocol/bt/resolver.go:275-382 | no tree's spelling is a prefix of another's |
| `BencodeProofs.AcceptedDocuments` | backend/internal/protocol/bt/resolver.go:275-284 | a document is accepted exactly if it spells an acceptable tree, and then only one |
| `BencodeProofs.ReencodingGivesTheBytesBack` | backend/internal/protocol/bt/resolver.go:340-346 | encoding an accepted document again is accepted, and gives the same bytes exactly if no integer has a plus sign |
| `Limiter.BandwidthLimiter.WaitN` | backend/internal/download/bandwidth_limiter.go:40-92 | the waiter's loop, with rate changes and the attempts of others anywhere between its own, computes the outcome, the charges and the bucket of `WaitOver` |
| `Limiter.WaitIsCovered` | backend/internal/download/bandwidth_limiter.go:40-92 | for every such wait: success means all was charged unless the limit was lifted, a canceled wait paid less than all, and all charges and tokens stay within what the rates allowed |
| `Limiter.BandwidthLimiter.TryTakeLocked` | backend/internal/download/bandwidth_limiter.go:47-66 | one attempt refills, then charges at most a burst, or charges nothing and names the time to wait |
| `Limiter.BandwidthLimiter.SetBytesPerSecond` | backend/internal/download/bandwidth_limiter.go:31-38 | a rate change refills at the old rate first |
| `Limiter.ChargedWithinSupply` | backend/internal/download/bandwidth_limiter.go:94-122 | with any waiters and rate changes, charged plus tokens never exceed what the rates allowed |
| `Limiter.FixedRateBound` | backend/internal/download/bandwidth_limiter.go:94-122 | at a fixed rate an interval charges at most the larger of the rate and 64 KiB, plus rate times time |
| `Limiter.ServedPaysExactly` | backend/internal/download/bandwidth_limiter.go:40-92 | a served waiter was charged exactly its count |
| `Limiter.NobodySlipsThrough` | backend/internal/download/bandwidth_limiter.go:50-53 | while the rate stays positive nobody is let through uncharged |
| `Limiter.WaitIsEnough` | backend/internal/download/bandwidth_limiter.go:64-69 | waiting for the computed time suffices if nothing else is charged |
| `Limiter.WaitIsNeeded` | backend/internal/download/bandwidth_limiter.go:64-69 | and before that moment the attempt is still short |
| `Limiter.PatientWaitersAreServed` | backend/internal/download/bandwidth_limiter.go:40-92 | a waiter who is alone and attempts again when told to is served in full, however much it asks for |
| `Limiter.LiftedLimitsLetPass` | backend/internal/download/bandwidth_limiter.go:50-53 | without a limit the next attempt passes, uncharged |
| `Limiter.AttemptsAreWhole` | backend/internal/download/bandwidth_limiter.go:47-66 | an attempt is charged all that is asked, or a whole burst (the rate, but at least 64 KiB), exactly if the refilled tokens cover it, and else told how long they need |
| `Limiter.RateChangesKeepTokens` | backend/internal/download/bandwidth_limiter.go:107-122 | a rate change keeps the tokens up to the new burst; lifting the limit clears them |
| `FileNames.SelectDestination` | backend/internal/download/filename.go:39-73 | the search ends, at the least copy number that is not taken, or with the error of that number |
| `FileNames.SearchIsBounded` | backend/internal/download/filename.go:50-72 | there are no more taken candidates than files and active tasks that can take one |
| `FileNames.CandidatesDiffer` | backend/internal/download/filename.go:75-79 | copy names are injective in the copy number |
| `FileNames.CopiesKeepTheirKind` | backend/internal/download/filename.go:75-79 | a copy keeps the extension and does not become a hidden file |
| `FileNames.CopiesAreNumbered` | backend/internal/download/filename.go:75-79 | the copies of a name are numbered from one in front of its last extension |
| `FileNames.WorkPathsDiffer` | backend/internal/download/manager.go:1045-1047 | work paths are injective in the destination |
| `FileNames.CreationKeepsExclusive` | backend/internal/download/filename.go:39-73 | a task on a selected destination shares no file with the tasks that are not over, and overwrites none that is there |
| `FileNames.RetryKeepsExclusive` | backend/internal/download/manager.go:509-513 | a manual retry keeps the paths exclusive exactly if no task that is not over has its destination |
| `FileNames.RetryCanShareThePath` | backend/internal/download/manager.go:509-513 | the failing case, step by step |
| `Dependencies.RuntimePackageNames` | backend/internal/releaseartifact/notices.go:243-271 | fails exactly if the root or something reachable is missing, otherwise lists the reachable names sorted without duplicates |
| `TorrentFiles.SafeFiles` | backend/internal/protocol/bt/resolver.go:146-203 | accepts exactly the safe file lists, and adds lengths in 64 bits without overflow |
| `TorrentFiles.SafeTorrentsExactly` | backend/internal/protocol/bt/resolver.go:146-203 | what safe means, file by file: counts and sizes, no symbolic links, safe and different paths, and something to select |
| `TorrentFiles.SelectableAre` | backend/internal/protocol/bt/resolver.go:146-203 | the files offered for selection are exactly those that are not padding, with their numbers and sizes in the metadata, in order |
| `TorrentFiles.ValidateSelection` | backend/internal/protocol/bt/downloader.go:274-299 | accepts exactly a non-empty selection of different existing files, returned sorted, with the 64-bit sum of the sizes, which is exact and within the torrent when sizes are not negative and fit |
| `TorrentFiles.SelectionOfSafeTorrent` | backend/internal/protocol/bt/downloader.go:274-299 | no selection of a safe torrent exceeds the size limit |

## Left out

- BitTorrent tasks in the manager, their runs, their resume (which is not rolled back when it cannot be stored) and the torrent client: the queue invariant is stated for HTTP tasks.
- Sockets, TLS, proxies, redirects and their final URLs: a response is an event with a status, a version, lengths and a range.
- Header syntax other than Content-Range; Last-Modified is taken as a validator that never names two versions; white space and letter case in Content-Range are those of ASCII.
- The store's encoding; a save is atomic, and fails only where the code handles the failure; removals whose errors the code ignores succeed.
- A store that fails while it is read or written back at start: the engine then does not start. A Range of several parts among a task's headers, which a server may answer with a multipart body.
- fsync and reordering of disk writes, symbolic links, permissions, and errors of file checks other than "does not exist" (except in the search for a free name).
- Clock readings within one locked section are one reading; the limiter uses real numbers and the clock of the fixed-rate bound does not go back.
- Goroutines and channels: a locked section is one step, and waiting for a run is a step that needs the run to be gone.
- Speeds, timestamps other than plans and retry moments, diagnostics, subscribers and published events: they do not influence the results.
- Which transport errors count as transient: the class of a failure is part of the event.
- Sorting and number parsing of the Go library: modelled by an insertion sort and by the value of the digits.
- `SafeFileName` and Unicode normalisation: names are separator-free bytes; that a cleaned name does not begin with a dot is assumed where it matters (`CleanName`), and its trimming is not modelled. It is not idempotent.
- Safe path segments of torrents: a file comes with its safe path or without one; paths are compared without case in ASCII only.
- REST handlers, settings validation, license texts, release manifests, the host life cycle, and the Flutter application: checks and glue around what is modelled.
- Recovery.ReconcileStoredTask: does not model the checks of a stored record's identity, URL, destination and timestamps, which refuse the record before anything modelled happens; a record is its numbers, state, checkpoint and validator.
- SchedulerManager.Manager.ApplySchedulerSettings: does not model the limiter's rate, which the same section sets; `Limiter.BandwidthLimiter.SetBytesPerSecond` is that.
- SchedulerManager.Manager.Create: does not model the checks of URL, file name, directory and metadata, which refuse a task before the manager's state is read; the search for its file name is `FileNames.SelectDestination`.
- SchedulerManager.Manager.Delete: does not model the removal of the destination, which is the step `Delete` of the transfer protocol, nor its errors.
- TorrentFiles.SafeFiles: does not model path normalisation and the safety of segments; each file comes with the normalized path or without one.
- TransferTheorems.NothingTorn: needs responses that vouch for their length, a size that is not too small, and no Range among the task's headers; the exact conditions in `TransferSizes` and `OwnRanges` say what happens without them.
- TransferTheorems.NothingSpliced: is about tasks without a Range among their own headers; `OwnRangeSplices` shows why, and `SegmentsAreSafeWithAnyRange` covers the others.
