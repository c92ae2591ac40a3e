/**
 What each step of the download protocol is for, told by its outcome: which answers end a run and how, what a run that
 fails, is paused, canceled or shut down leaves of its file, and how a task goes on afterwards.
 */
module TransferOutcomes {
  import opened Basics
  import opened Checkpoints
  import opened Tasks
  import opened Recovery
  import opened TransferProtocol
  import opened TransferSafety
  import opened TransferTheorems

  predicate FailsWith(c: Cell, fault: Fault) {
    c.memory.Up? && c.memory.run.Some? && c.memory.run.value.phase == Returned(Failure(fault))
  }

  // ---------------------------------------------------------------------
  // Beginning

  /**
   A new task uses four segments exactly if the server takes ranges, has a usable validator, and the size is known to be
   1 MiB or more; its run then reserves the whole file. Otherwise it begins with an empty file.
   */
  lemma NewTasksBegin(world: World, expectedSize: int, scheduledAt: Option<Time>, acceptRanges: bool,
                      validator: Option<Version>)
    ensures var c := Created(expectedSize, scheduledAt, acceptRanges, validator);
            && Next(world, c, StartRun).Some?
            && var started := Next(world, c, StartRun).value;
               && Next(world, started, BeginTransfer(true)).Some?
               && var begun := Next(world, started, BeginTransfer(true)).value;
                  && begun.memory.Up? && begun.memory.run.Some? && begun.memory.task.state == Downloading
                  && begun.disk.dest.None? && begun.disk.work.Some?
                  && var phase := begun.memory.run.value.phase;
                     if acceptRanges && validator.Some? && 1_048_576 <= expectedSize then
                       && phase.Segments? && |phase.checkpoint.segments| == 4
                       && ValidCheckpoint(phase.checkpoint, expectedSize) && Downloaded(phase.checkpoint) == 0
                       && phase.checkpoint.total == expectedSize == |begun.disk.work.value|
                     else
                       phase == Requested && begun.disk.work.value == []
  {
    if acceptRanges && validator.Some? && 1_048_576 <= expectedSize {
      FreshCheckpointValid(expectedSize, 4);
    }
    hide ValidCheckpoint, Downloaded;
  }

  // ---------------------------------------------------------------------
  // Answers

  /** An answer is taken or ends the run: transiently if its status is temporary, and only then. */
  lemma AnswersAreClassified(world: World, c: Cell, response: Response)
    requires c.memory.Up? && c.memory.run.Some? && c.memory.run.value.phase.Requested?
    ensures Next(world, c, Respond(response)).Some?
    ensures var after := Next(world, c, Respond(response)).value;
            && (if response.status == 408 || response.status == 429 || 500 <= response.status
                then FailsWith(after, Transient)
                else FailsWith(after, Permanent)
                     || (after.memory.Up? && after.memory.run.Some? && after.memory.run.value.phase.Body?))
            && after.memory.task == c.memory.task && after.memory.request == c.memory.request
  {
  }

  /** An answer from a changed resource, an encoded one, or one for another size is refused. */
  lemma WrongAnswersAreRefused(world: World, c: Cell, response: Response)
    requires c.memory.Up? && c.memory.run.Some? && c.memory.run.value.phase.Requested?
    requires var input := c.memory.run.value.input;
             || (input.validator.Some? && response.observed.Some? && response.observed != input.validator)
             || !response.identity
             || (response.status < 200 || 300 <= response.status)
             || (0 < input.offset && (response.status != PARTIAL_CONTENT || response.range.None?
                                      || response.range.value.start != input.offset))
             || (input.offset == 0 && 0 < input.expectedSize && 0 <= response.length != input.expectedSize)
             || (0 < input.offset && 0 < input.expectedSize && response.range.Some?
                 && 0 <= response.range.value.total != input.expectedSize)
    requires 0 <= c.memory.run.value.input.offset
    ensures Next(world, c, Respond(response)).Some?
    ensures var after := Next(world, c, Respond(response)).value;
            FailsWith(after, Permanent) || FailsWith(after, Transient)
  {
  }

  // ---------------------------------------------------------------------
  // Opening and publishing

  /** A run refuses to begin, and touches nothing, if its file is not as it expects or a destination is in the way. */
  lemma UnexpectedFilesAreRefused(world: World, c: Cell, openOk: bool)
    requires c.memory.Up? && c.memory.run.Some? && c.memory.run.value.phase.Starting?
    requires var input := c.memory.run.value.input;
             || !openOk || c.disk.dest.Some? || input.offset < 0 || (0 < input.expectedSize < input.offset)
             || (!Segmented(input)
                 && (if input.offset == 0 then c.disk.work.Some? else WorkSize(c.disk) != input.offset))
             || (Segmented(input) && input.validator.None?)
             || (Segmented(input) && input.checkpoint.None? && c.disk.work.Some?)
             || (input.checkpoint.Some? && (WorkSize(c.disk) != input.checkpoint.value.total
                                            || Downloaded(input.checkpoint.value) != input.offset))
    ensures Next(world, c, BeginTransfer(openOk)).Some?
    ensures var after := Next(world, c, BeginTransfer(openOk)).value;
            FailsWith(after, Permanent) && after.disk == c.disk && after.memory.task == c.memory.task
  {
    hide Downloaded, FreshCheckpoint;
  }

  /** A destination that exists, or cannot be linked, is left as it is. */
  lemma DestinationsAreNotOverwritten(world: World, c: Cell, ok: bool)
    requires c.memory.Up? && c.memory.run.Some? && c.memory.run.value.phase.Sealed? && c.disk.work.Some?
    requires c.disk.linked ==> c.disk.dest.Some?
    ensures Next(world, c, LinkFile(ok)).Some?
    ensures var after := Next(world, c, LinkFile(ok)).value;
            if ok && c.disk.dest.None? then
              after.disk == Disk(c.disk.work, c.disk.work, true)
                && after.published == Some(c.memory.run.value.phase.proof)
            else
              FailsWith(after, Permanent) && after.published == c.published
              && (!c.disk.linked ==> after.disk.dest == c.disk.dest)
  {
  }

  /** Once it is published, a file is the task's file, whether or not its work name can be removed. */
  lemma PublishedFilesCount(world: World, c: Cell, ok: bool, maxRetries: nat, retryAt: Time)
    requires c.memory.Up? && c.memory.run.Some? && c.memory.run.value.phase.Linked?
    requires c.memory.task.state == Downloading
    ensures Next(world, c, UnlinkWork(ok)).Some?
    ensures var size := c.memory.run.value.phase.size;
            var unlinked := Next(world, c, UnlinkWork(ok)).value;
            && unlinked.disk == (if ok then Disk(None, c.disk.dest, false) else c.disk)
            && Next(world, unlinked, ExitRun(maxRetries, retryAt)).Some?
            && var after := Next(world, unlinked, ExitRun(maxRetries, retryAt)).value;
               && after.memory.Up? && after.memory.run.None? && after.memory.task.state == Completed
               && after.memory.task.downloaded == after.memory.task.total == size && after.memory.task.error.None?
               && after.disk == unlinked.disk
  {
  }

  // ---------------------------------------------------------------------
  // What a run leaves of its file

  /** The file as a run found it: the bytes before its offset, or no file. */
  function AtTheStart(c: Cell): Option<Bytes>
    requires c.memory.Up? && c.memory.run.Some? && c.disk.work.Some?
  {
    var input := c.memory.run.value.input;
    if !Segmented(input) && 0 < input.offset <= |c.disk.work.value| then Some(c.disk.work.value[..input.offset])
    else None
  }

  /**
   A run that fails of itself leaves the file as it found it; told to pause or to shut down, it leaves the file as it
   is; told to cancel, it leaves none. The destination is never touched.
   */
  lemma FailuresCleanUp(world: World, validator: Option<Version>, c: Cell, event: Event)
    requires Inv(world, validator, c) && c.memory.Up? && c.memory.run.Some? && Next(world, c, event).Some?
    requires !IsManagerEvent(event) && !event.ExitRun? && !event.BeginTransfer? && c.disk.work.Some?
    requires var after := Next(world, c, event).value;
             FailsWith(after, Transient) || FailsWith(after, Permanent) || FailsWith(after, Interrupted)
    requires !c.memory.run.value.phase.Returned?
    ensures var after := Next(world, c, event).value.disk;
            && after.dest == c.disk.dest
            && match c.memory.run.value.cause
               case PauseCause => after == c.disk
               case ShutdownCause => after == c.disk
               case CancelCause => after.work.None?
               case NoCause => after.work == AtTheStart(c)
  {
    hide AcceptReply, AcceptSegment, AcceptsReport, Sound, WorkersOK, Fits, Describes, ValidCheckpoint, Downloaded;
  }

  /** The run is told why it is stopped, and breaks off. */
  lemma StoppedRunsBreakOff(world: World, c: Cell, fault: Fault) returns (after: Cell)
    requires c.memory.Up? && c.memory.run.Some? && c.memory.run.value.cause == NoCause
    requires var phase := c.memory.run.value.phase; phase.Requested? || phase.Body? || phase.Settled? || phase.Sealed?
    requires c.memory.operation != Operation.Idle
    ensures Leads(world, c, [SignalRun, BreakOff(fault)], after)
    ensures FailsWith(after, fault) && after.disk.dest == c.disk.dest
    ensures if c.memory.operation == Canceling then after.disk.work.None? else after.disk == c.disk
    ensures after.memory.task == c.memory.task && after.memory.request == c.memory.request && after.store == c.store
  {
    var signaled := Next(world, c, SignalRun).value;
    after := Next(world, signaled, BreakOff(fault)).value;
    hide Next, LeadsWith;
    EmptyRun(world, None, after);
    StepThen(world, None, signaled, BreakOff(fault), after, [], after);
    StepThen(world, None, c, SignalRun, signaled, [BreakOff(fault)], after);
  }

  // ---------------------------------------------------------------------
  // Pausing and resuming

  /** What a stopped task may keep: the bytes of its file, or those its checkpoint counts. */
  function Kept(request: Request, disk: Disk): int {
    if request.checkpoint.Some? then Downloaded(request.checkpoint.value) else WorkSize(disk)
  }

  /** The file is what the task believes it to be. */
  predicate FileFits(task: Task, request: Request, disk: Disk) {
    if request.checkpoint.Some? then
      ValidCheckpoint(request.checkpoint.value, task.total) && disk.work.Some?
      && |disk.work.value| == request.checkpoint.value.total
    else if request.allowSegments then disk.work.None?
    else !(0 < task.total < WorkSize(disk))
  }

  /** Every task that is under way can be paused, at once in what is stored. */
  lemma ActiveTasksCanBePaused(world: World, c: Cell)
    requires c.memory.Up? && c.memory.operation == Operation.Idle
    ensures Next(world, c, Event.Pause).Some? <==>
              c.memory.task.state == Queued || c.memory.task.state == Downloading || c.memory.task.state == Retrying
    ensures Next(world, c, Event.Pause).Some? ==>
              var after := Next(world, c, Event.Pause).value;
              && after.memory.task == c.memory.task.(state := TaskState.Paused, nextRetryAt := None)
              && after.memory.request == c.memory.request && after.memory.run == c.memory.run && after.disk == c.disk
              && after.store == Some(Stored(after.memory.task, after.memory.request))
  {
  }

  /**
   Once its run is gone, a paused task counts exactly what it kept, and it can be resumed from there if and only if it
   kept nothing or has a validator.
   */
  lemma PausedTasksResume(world: World, validator: Option<Version>, c: Cell)
    requires Inv(world, validator, c) && c.memory.Up? && c.memory.run.None? && c.memory.operation == Pausing
    requires c.memory.task.state == TaskState.Paused && c.disk.dest.None?
    requires FileFits(c.memory.task, c.memory.request, c.disk)
    ensures Next(world, c, FinishPause(true)).Some?
    ensures var paused := Next(world, c, FinishPause(true)).value;
            var kept := Kept(c.memory.request, c.disk);
            && paused.memory.Up? && paused.memory.task == c.memory.task.(downloaded := kept) && paused.disk == c.disk
            && paused.memory.request == c.memory.request && paused.memory.operation == Operation.Idle
            && paused.memory.run.None?
            && paused.store == Some(Stored(paused.memory.task, paused.memory.request))
            && (Next(world, paused, Event.Resume(true)).Some? <==> kept == 0 || validator.Some?)
            && (Next(world, paused, Event.Resume(true)).Some? ==>
                  Continues(Next(world, paused, Event.Resume(true)).value, paused, kept))
  {
    hide ValidCheckpoint, Downloaded, Sound, Describes;
  }

  /** The user has taken the task up again with these bytes: it is queued, with its whole budget and without a plan. */
  predicate Continues(c: Cell, before: Cell, kept: int)
    requires before.memory.Up?
  {
    && c.memory.Up? && c.memory.operation == Operation.Idle && c.memory.run.None?
    && c.memory.task == before.memory.task.(state := Queued, downloaded := kept, error := None, retryCount := 0,
                                            nextRetryAt := None, scheduledAt := None)
    && c.memory.request == before.memory.request.(checkpoint := c.memory.request.checkpoint, offset := kept,
                                                  expectedSize := before.memory.task.total)
    && c.store == Some(Stored(c.memory.task, c.memory.request))
    && c.disk.dest.None? && (0 < kept ==> c.disk == before.disk)
    && (kept == 0 && c.memory.request.checkpoint.None? ==> c.disk.work.None?)
  }

  /** A resume that cannot be stored leaves the task paused with its files and its record; it can be tried again. */
  lemma UnsavedResumesStayPaused(world: World, c: Cell)
    requires c.memory.Up?
    ensures Next(world, c, Event.Resume(false)).Some? <==> Next(world, c, Event.Resume(true)).Some?
    ensures Next(world, c, Event.Resume(false)).Some? ==>
              var after := Next(world, c, Event.Resume(false)).value;
              && after.memory.Up? && after.memory.task.state == TaskState.Paused && after.store == c.store
              && after.memory.task.downloaded == c.memory.task.downloaded
              && after.memory.task.total == c.memory.task.total && after.disk.dest == c.disk.dest
              && (0 < c.memory.task.downloaded || c.memory.request.checkpoint.Some? ==> after.disk == c.disk)
              && Next(world, after, Event.Resume(true)).Some?
  {
    hide ValidCheckpoint, Downloaded;
  }

  /** A manual retry that cannot be stored is rolled back; at most the work file it would not have used is gone. */
  lemma UnsavedRetriesAreRolledBack(world: World, c: Cell)
    requires c.memory.Up?
    ensures Next(world, c, RetryNow(false)).Some? <==> Next(world, c, RetryNow(true)).Some?
    ensures Next(world, c, RetryNow(false)).Some? ==>
              var after := Next(world, c, RetryNow(false)).value;
              && after.memory == c.memory && after.store == c.store && after.disk.dest == c.disk.dest
              && (after.disk == c.disk || after.disk == c.disk.RemoveWork())
              && after.disk == Next(world, c, RetryNow(true)).value.disk
  {
  }

  // ---------------------------------------------------------------------
  // Giving up and trying again

  /** A run that failed for the last time leaves its task failed, and retryable exactly if the failure was transient. */
  lemma LastFailuresAreKept(world: World, c: Cell, fault: Fault, maxRetries: nat, retryAt: Time)
    requires FailsWith(c, fault) && c.memory.task.state == Downloading && fault != Interrupted
    requires fault == Transient ==> maxRetries <= c.memory.task.retryCount
    ensures Next(world, c, ExitRun(maxRetries, retryAt)).Some?
    ensures var after := Next(world, c, ExitRun(maxRetries, retryAt)).value;
            && after.memory.Up? && after.memory.run.None? && after.memory.task.state == Failed
            && after.memory.task.error.Some? && after.memory.task.error.value.retryable == (fault == Transient)
            && after.memory.task.downloaded == c.memory.task.downloaded
            && after.memory.task.total == c.memory.task.total
            && after.memory.request == c.memory.request.(checkpoint := None)
            && after.memory.operation == c.memory.operation
            && after.disk == c.disk && after.store == Some(Stored(after.memory.task, after.memory.request))
  {
  }

  /** Within the budget a transient failure is retried later, with the bytes it may keep. */
  lemma TransientFailuresAreRetried(world: World, validator: Option<Version>, c: Cell, maxRetries: nat, retryAt: Time)
    requires Inv(world, validator, c) && FailsWith(c, Transient) && c.memory.task.state == Downloading
    requires c.memory.task.retryCount < maxRetries
    ensures Next(world, c, ExitRun(maxRetries, retryAt)).Some?
    ensures var after := Next(world, c, ExitRun(maxRetries, retryAt)).value;
            && after.memory.Up? && after.memory.run.None? && after.memory.task.state == Retrying
            && after.memory.task.nextRetryAt == Some(retryAt)
            && after.memory.task.retryCount == c.memory.task.retryCount + 1
            && after.memory.task.downloaded == after.memory.request.offset == WorkSize(after.disk)
            && after.disk.dest == c.disk.dest && after.memory.request.checkpoint.None?
            && after.disk.work == (if c.memory.request.checkpoint.Some? then None else c.disk.work)
            && Next(world, after, RetryDue).Some?
            && var due := Next(world, after, RetryDue).value;
               && due.memory == after.memory.(task := after.memory.task.(state := Queued, nextRetryAt := None))
               && due.disk == after.disk
  {
    hide AcceptsReport, ValidCheckpoint, Downloaded, Describes, Sound;
  }

  /**
   A task the engine gave up after a transient failure can be taken up by hand: it continues with the bytes in its file,
   or from nothing if it used segments or has no validator.
   */
  lemma GivenUpTasksRetry(world: World, validator: Option<Version>, c: Cell, maxRetries: nat, retryAt: Time)
    requires Inv(world, validator, c) && Covered(world, validator, c) && FailsWith(c, Transient)
    requires c.memory.task.state == Downloading && maxRetries <= c.memory.task.retryCount
    ensures Next(world, c, ExitRun(maxRetries, retryAt)).Some?
    ensures var failed := Next(world, c, ExitRun(maxRetries, retryAt)).value;
            && failed.memory.Up? && Next(world, failed, RetryNow(true)).Some?
            && Continues(Next(world, failed, RetryNow(true)).value, failed,
                         if validator.Some? && !c.memory.request.allowSegments then WorkSize(c.disk) else 0)
  {
    hide ValidCheckpoint, Downloaded, Describes, Sound;
  }

  /** A permanent failure cannot be taken up again. */
  lemma PermanentFailuresStay(world: World, c: Cell, maxRetries: nat, retryAt: Time, saved: bool)
    requires FailsWith(c, Permanent) && c.memory.task.state == Downloading
    ensures Next(world, c, ExitRun(maxRetries, retryAt)).Some?
    ensures var failed := Next(world, c, ExitRun(maxRetries, retryAt)).value;
            failed.memory.task.state == Failed && Next(world, failed, RetryNow(saved)).None?
  {
  }

  // ---------------------------------------------------------------------
  // Canceling and deleting

  /** Whatever is not over can be canceled; when its run is gone, the work file is removed. */
  lemma CancelingRemovesTheWorkFile(world: World, c: Cell, saved: bool)
    requires c.memory.Up? && c.memory.operation == Operation.Idle
    ensures Next(world, c, Cancel(saved)).Some? <==> !IsTerminalState(c.memory.task.state)
    ensures Next(world, c, Cancel(saved)).Some? ==>
              var canceled := Next(world, c, Cancel(saved)).value;
              && canceled.memory.Up? && canceled.memory.task == c.memory.task.(state := Canceled, nextRetryAt := None)
              && canceled.memory.run == c.memory.run && canceled.disk == c.disk
              && (saved ==> canceled.store == Some(Stored(canceled.memory.task, canceled.memory.request)))
              && (c.memory.run.None? ==>
                    && Next(world, canceled, FinishCancel).Some?
                    && var after := Next(world, canceled, FinishCancel).value;
                       && after.disk == Disk(None, c.disk.dest, false) && after.memory.Up?
                       && after.memory.operation == Operation.Idle && after.memory.task == canceled.memory.task)
  {
  }

  /**
   A deletion removes the file exactly if it was asked to and the task is completed; otherwise the destination stays,
   and the work file is never touched, whether or not the record could be removed.
   */
  lemma DeletionSparesFiles(world: World, c: Cell, deleteFile: bool, removed: bool)
    requires c.memory.Up? && c.memory.operation == Operation.Idle
    ensures Next(world, c, Event.Delete(deleteFile, removed)).Some?
            <==> var state := c.memory.task.state; state == Completed || state == Failed || state == Canceled
    ensures Next(world, c, Event.Delete(deleteFile, removed)).Some? ==>
              var after := Next(world, c, Event.Delete(deleteFile, removed)).value;
              && after.disk.work == c.disk.work
              && after.disk.dest == (if deleteFile && c.memory.task.state == Completed then None else c.disk.dest)
              && (!(deleteFile && c.memory.task.state == Completed) ==>
                    after.disk == c.disk && after.published == c.published)
              && (if removed then after.store.None? && after.memory.Down?
                  else after.store == c.store && after.memory == c.memory)
  {
  }

  // ---------------------------------------------------------------------
  // Reports

  /** A report of a running transfer is remembered and stored at once. */
  lemma ReportsAreStored(world: World, c: Cell, event: Event)
    requires c.memory.Up? && c.memory.run.Some? && c.memory.task.state == Downloading
    requires (event.Announce? || event.Report?) && Next(world, c, event).Some?
    ensures var phase := c.memory.run.value.phase;
            var after := Next(world, c, event).value;
            && phase.Body? && after.memory.Up?
            && after.memory.task == c.memory.task.(downloaded := phase.downloaded, total := phase.reply.total)
            && after.memory.request == c.memory.request
            && after.store == Some(Stored(after.memory.task, after.memory.request)) && after.disk == c.disk
  {
  }

  /** So is the report of a segment worker, with its checkpoint, even while the task is being paused. */
  lemma CheckpointsAreStored(world: World, validator: Option<Version>, c: Cell, i: nat)
    requires Inv(world, validator, c) && c.memory.Up? && c.memory.run.Some? && Next(world, c, SegmentDeliver(i)).Some?
    requires c.memory.task.state == Downloading || c.memory.task.state == TaskState.Paused
    ensures var snapshot := c.memory.run.value.phase.workers[i].snapshot;
            var after := Next(world, c, SegmentDeliver(i)).value;
            && after.memory.Up? && after.memory.task.downloaded == Downloaded(snapshot)
            && after.memory.task.total == snapshot.total
            && after.memory.task.state == c.memory.task.state && after.memory.request.checkpoint == Some(snapshot)
            && after.store == Some(Stored(after.memory.task, after.memory.request)) && after.disk == c.disk
  {
    var phase := c.memory.run.value.phase;
    assert WorkerOK(world, phase.workers[i].version, c.disk.work.value, phase.checkpoint.segments[i],
                    phase.checkpoint.total, phase.workers[i]);
    hide Sound, Fits, SegmentsOK;
  }

  /** What a worker has written is counted, and a report of it reaches the record. */
  lemma CountsAreReported(world: World, validator: Option<Version>, c: Cell, i: nat)
    requires Inv(world, validator, c) && c.memory.Up? && c.memory.run.Some? && HasWorker(c, i)
    requires c.memory.run.value.phase.workers[i].Receiving?
    requires c.memory.task.state == Downloading || c.memory.task.state == TaskState.Paused
    ensures Next(world, c, SegmentCount(i, true)).Some?
    ensures var counted := Next(world, c, SegmentCount(i, true)).value;
            var checkpoint := c.memory.run.value.phase.checkpoint;
            var ahead := c.memory.run.value.phase.workers[i].ahead;
            var segment := checkpoint.segments[i];
            && Next(world, counted, SegmentDeliver(i)).Some?
            && var after := Next(world, counted, SegmentDeliver(i)).value;
               && after.memory.Up? && after.memory.task.downloaded == Downloaded(checkpoint) + ahead
               && after.memory.task.total == checkpoint.total && after.memory.request.checkpoint.Some?
               && after.memory.request.checkpoint.value.segments
                  == checkpoint.segments[i := segment.(completed := segment.completed + ahead)]
               && after.store == Some(Stored(after.memory.task, after.memory.request)) && after.disk == c.disk
  {
    CountAdds(world, validator, c, i);
    hide Inv, Downloaded, ValidCheckpoint;
  }

  lemma CountAdds(world: World, validator: Option<Version>, c: Cell, i: nat)
    requires Inv(world, validator, c) && c.memory.Up? && c.memory.run.Some? && HasWorker(c, i)
    requires c.memory.run.value.phase.workers[i].Receiving?
    ensures var checkpoint := c.memory.run.value.phase.checkpoint;
            var ahead := c.memory.run.value.phase.workers[i].ahead;
            && Downloaded(CountBytes(checkpoint, i, ahead)) == Downloaded(checkpoint) + ahead
            && ValidCheckpoint(CountBytes(checkpoint, i, ahead), checkpoint.total)
  {
    var phase := c.memory.run.value.phase;
    assert WorkerOK(world, validator.value, c.disk.work.value, phase.checkpoint.segments[i], phase.checkpoint.total,
                    phase.workers[i]);
    TilesSplit(phase.checkpoint.segments, 0, phase.checkpoint.total, i);
    hide Sound, Fits, WorkersOK;
    AdvanceSegment(phase.checkpoint.segments, 0, phase.checkpoint.total, i,
                   phase.checkpoint.segments[i].completed + phase.workers[i].ahead);
  }

  /** A segmented transfer stores its checkpoint before the first request and after the last worker. */
  lemma EndsOfSegmentsAreStored(world: World, validator: Option<Version>, c: Cell, event: Event)
    requires Inv(world, validator, c) && c.memory.Up? && c.memory.run.Some? && c.memory.run.value.phase.Segments?
    requires (event.SegmentAnnounce? || event.SegmentsSettle?) && Next(world, c, event).Some?
    requires c.memory.task.state == Downloading || c.memory.task.state == TaskState.Paused
    ensures var checkpoint := c.memory.run.value.phase.checkpoint;
            var after := Next(world, c, event).value;
            && after.memory.Up? && after.memory.task.downloaded == Downloaded(checkpoint)
            && after.memory.task.total == checkpoint.total && after.memory.request.checkpoint == Some(checkpoint)
            && after.store == Some(Stored(after.memory.task, after.memory.request)) && after.disk == c.disk
  {
    hide Sound, Fits, WorkersOK;
  }

  /** A report that comes too late, from a transfer whose task is not downloading any more, changes nothing. */
  lemma LateReportsAreDropped(world: World, c: Cell, event: Event)
    requires c.memory.Up? && c.memory.run.Some? && Next(world, c, event).Some?
    requires c.memory.task.state != Downloading
    requires || event.Announce? || event.Report?
             || ((event.SegmentAnnounce? || event.SegmentDeliver? || event.SegmentsSettle?)
                 && c.memory.task.state != TaskState.Paused)
    ensures var after := Next(world, c, event).value;
            && after.memory.Up? && after.memory.task == c.memory.task && after.memory.request == c.memory.request
            && after.store == c.store && after.disk == c.disk
  {
  }

  /** The run of a task that was paused or canceled meanwhile leaves it alone. */
  lemma StoppedRunsLeaveTheirTask(world: World, c: Cell, maxRetries: nat, retryAt: Time)
    requires c.memory.Up? && c.memory.run.Some? && c.memory.run.value.phase.Returned?
    requires c.memory.task.state != Downloading
    ensures Next(world, c, ExitRun(maxRetries, retryAt)) == Some(c.(memory := c.memory.(run := None)))
  {
  }

  // ---------------------------------------------------------------------
  // Shutdowns and crashes

  /** A plan nothing was done for survives a shutdown: the next start finds it queued as it was. */
  lemma PlansSurviveShutdown(world: World, validator: Option<Version>, c: Cell, now: Time, later: Time)
    requires Inv(world, validator, c) && c.memory.Up? && c.memory.operation == Operation.Idle
    requires c.memory.task.state == Queued
    requires InFuture(c.memory.task, now) && InFuture(c.memory.task, later) && c.memory.task.downloaded == 0
    requires c.memory.request.checkpoint.None? && c.disk.work.None?
    ensures Next(world, c, Event.Close(now)).Some?
    ensures var closing := Next(world, c, Event.Close(now)).value;
            && closing.memory.Up? && closing.memory.task == c.memory.task
            && Next(world, closing, Event.FinishClose(true)).Some?
            && var closed := Next(world, closing, Event.FinishClose(true)).value;
               && closed.memory.Down? && Next(world, closed, Event.Restore(later, true)).Some?
               && var restarted := Next(world, closed, Event.Restore(later, true)).value;
                  && restarted.memory.Up? && restarted.memory.task == c.memory.task.(error := None, nextRetryAt := None)
                  && restarted.disk == c.disk
  {
    PlansSurvive(Stored(c.memory.task, c.memory.request), c.disk, later);
    hide Reconcile;
  }

  /** Every other active task is paused by a shutdown, and counts what it kept when its run is gone. */
  lemma ShutdownPauses(world: World, c: Cell, now: Time, saved: bool)
    requires c.memory.Up? && c.memory.operation == Operation.Idle
    ensures Next(world, c, Event.Close(now)).Some?
    ensures var task := c.memory.task;
            var untouched := task.state == Queued && InFuture(task, now) && task.downloaded == 0;
            var closing := Next(world, c, Event.Close(now)).value;
            && closing.memory.Up? && closing.memory.operation == Closing && closing.disk == c.disk
            && closing.memory.run == c.memory.run
            && closing.memory.task == (if IsActiveState(task.state) && !untouched
                                       then task.(state := TaskState.Paused, nextRetryAt := None) else task)
            && (IsActiveState(task.state) ==>
                  closing.store == Some(Stored(closing.memory.task, closing.memory.request)))
            && (c.memory.run.None? && closing.memory.task.state == TaskState.Paused
                && FileFits(task, c.memory.request, c.disk) && saved ==>
                  && Next(world, closing, Event.FinishClose(saved)).Some?
                  && var closed := Next(world, closing, Event.FinishClose(saved)).value;
                     && closed.disk == c.disk && closed.memory.Down?
                     && closed.store == Some(Stored(closing.memory.task.(downloaded := Kept(c.memory.request, c.disk)),
                                                    c.memory.request)))
  {
    hide ValidCheckpoint, Downloaded;
  }

  /**
   What a crash in the middle of a single-connection body costs: nothing, unless the task would be read as one that uses
   segments. Then the partial file is lost, and with it the task if any progress was stored.
   */
  lemma CrashesKeepTheBytes(world: World, validator: Option<Version>, c: Cell, now: Time)
    requires Inv(world, validator, c) && Covered(world, validator, c) && validator.Some?
    requires c.memory.Up? && c.memory.run.Some? && c.memory.run.value.phase.Body?
    requires c.store.value.task.state == Downloading
    ensures var crashed := Next(world, c, Crash).value;
            && Next(world, c, Crash).Some? && Next(world, crashed, Event.Restore(now, true)).Some?
            && var restarted := Next(world, crashed, Event.Restore(now, true)).value;
               var segmented := c.memory.request.acceptRanges
                 && DEFAULT_SEGMENTED_TRANSFER_MIN_SIZE <= c.memory.task.total;
               && restarted.memory.Up?
               && (if !segmented then
                     && restarted.memory.task.state == TaskState.Paused && restarted.disk == c.disk
                     && restarted.memory.task.downloaded == |c.disk.work.value|
                     && Next(world, restarted, Event.Resume(true)).Some?
                   else
                     && restarted.disk.work.None?
                     && if c.store.value.task.downloaded == 0
                        then restarted.memory.task.state == TaskState.Paused
                             && Next(world, restarted, Event.Resume(true)).Some?
                        else restarted.memory.task.state == Failed && !restarted.memory.task.error.value.retryable)
  {
    PartialFilesSurvive(c.store.value, c.disk, now);
    BodyFits(world, validator, c);
    hide Reconcile, Inv, Covered;
  }

  lemma BodyFits(world: World, validator: Option<Version>, c: Cell)
    requires Inv(world, validator, c) && Covered(world, validator, c) && validator.Some?
    requires c.memory.Up? && c.memory.run.Some? && c.memory.run.value.phase.Body?
    requires c.store.value.task.state == Downloading
    ensures c.disk.dest.None? && c.disk.work.Some? && c.store.value.checkpoint.None? && ReadableTask(c.store.value.task)
    ensures c.store.value.acceptRanges == c.memory.request.acceptRanges && c.store.value.validator == validator
    ensures c.store.value.task.total == c.memory.task.total
    ensures 0 < c.store.value.task.total ==> |c.disk.work.value| <= c.store.value.task.total
  {
  }

  // ---------------------------------------------------------------------
  // The store

  /** The steps of the manager that save the task, unless the store refuses. */
  predicate Saves(c: Cell, event: Event)
    requires c.memory.Up?
  {
    match event
    case StartRun => true
    case Pause => true
    case Resume(saved) => saved
    case RetryNow(saved) => saved
    case RetryDue => true
    case Cancel(saved) => saved
    case ExitRun(_, _) => c.memory.task.state == Downloading
    case _ => false
  }

  /** After each such step the store holds what the manager knows, so a crash right after it loses nothing. */
  lemma StepsAreStored(world: World, c: Cell, event: Event)
    requires c.memory.Up? && Saves(c, event) && Next(world, c, event).Some?
    ensures var after := Next(world, c, event).value;
            after.memory.Up? && after.store == Some(Stored(after.memory.task, after.memory.request))
  {
    hide PrepareResume, PrepareManualRetry, PrepareAutomaticRetry;
  }
}
