/**
 What every step of the download protocol keeps, and what follows over whole
 runs: nothing torn or spliced is published, stored checkpoints describe the
 work file, and every run starts in a state the downloader accepts.
 */
module TransferSafety {
  import opened Basics
  import opened Checkpoints
  import opened Tasks
  import opened Recovery
  import opened TransferProtocol

  // ---------------------------------------------------------------------
  // What a file may hold

  /** Two files hold the same bytes in `[lo, hi)`. */
  predicate Agree(a: Bytes, b: Bytes, lo: int, hi: int) {
    0 <= lo <= hi <= |a| && hi <= |b| && a[lo..hi] == b[lo..hi]
  }

  predicate SegmentSound(work: Bytes, remote: Bytes, segment: SegmentProgress) {
    Agree(work, remote, segment.start, segment.start + segment.completed)
  }

  /** The bytes a checkpoint counts are the remote bytes at their own positions. */
  predicate Sound(work: Bytes, remote: Bytes, checkpoint: TransferCheckpoint) {
    forall i :: 0 <= i < |checkpoint.segments| ==> SegmentSound(work, remote, checkpoint.segments[i])
  }

  /** A checkpoint that lays out exactly the remote version. */
  predicate Describes(checkpoint: TransferCheckpoint, remote: Bytes) {
    && ValidCheckpoint(checkpoint, checkpoint.total)
    && checkpoint.total == |remote|
    && DEFAULT_SEGMENTED_TRANSFER_MIN_SIZE <= checkpoint.total
  }

  /** A known size is that of the version the validator names where it allows segments. */
  predicate SizeOK(world: World, validator: Option<Version>, acceptRanges: bool, total: int) {
    validator.Some? && acceptRanges && DEFAULT_SEGMENTED_TRANSFER_MIN_SIZE <= total ==>
        total == |world(validator.value)|
  }

  /** A task learns no other size than the one its request expects. */
  predicate TotalsOK(validator: Option<Version>, total: int, expectedSize: int) {
    validator.Some? && 0 < total && 0 < expectedSize ==> total == expectedSize
  }

  /** What the work file holds, given what the engine would read it as. */
  predicate Fits(world: World, validator: Option<Version>, segments: bool, checkpoint: Option<TransferCheckpoint>,
                 disk: Disk) {
    match checkpoint
    case Some(cp) =>
      && validator.Some? && segments
      && Describes(cp, world(validator.value))
      && (disk.work.Some? && |disk.work.value| == cp.total ==> Sound(disk.work.value, world(validator.value), cp))
    case None =>
      !segments && validator.Some? && disk.work.Some? ==> disk.work.value <= world(validator.value)
  }

  predicate RecordOK(world: World, validator: Option<Version>, record: StoredTask, disk: Disk) {
    && record.validator == validator
    && ReadableTask(record.task)
    && (record.task.state != Completed ==>
          && SizeOK(world, validator, record.acceptRanges, record.task.total)
          && Fits(world, validator, RestoredRequest(record).allowSegments, record.checkpoint, disk)
          && (record.checkpoint.Some? ==> record.acceptRanges && record.task.total == record.checkpoint.value.total))
  }

  /** The offset does not exceed a known size. */
  predicate Within(request: Request) {
    0 < request.expectedSize ==> request.offset <= request.expectedSize
  }

  /** The conditions under which the downloader accepts a request. */
  predicate EntryOK(request: Request, disk: Disk) {
    && disk.dest.None?
    && match request.checkpoint
       case Some(cp) =>
         && request.validator.Some? && request.allowSegments
         && ValidCheckpoint(cp, request.expectedSize) && Downloaded(cp) == request.offset
         && disk.work.Some? && |disk.work.value| == cp.total
       case None =>
         && request.offset == WorkSize(disk) && Within(request)
         && (disk.work.Some? ==> 0 < request.offset && request.validator.Some? && !request.allowSegments)
         && (request.allowSegments ==>
               request.validator.Some? && DEFAULT_SEGMENTED_TRANSFER_MIN_SIZE <= request.expectedSize)
  }

  predicate WorkerOK(world: World, version: Version, work: Bytes, segment: SegmentProgress, total: int,
                     worker: Worker) {
    match worker
    case Asking => true
    case Receiving(from, ahead) =>
      from == version && segment.completed + ahead <= segment.Length()
      && Agree(work, world(version), segment.start, segment.start + segment.completed + ahead)
    case Reporting(from, snapshot) =>
      from == version && snapshot.total == total
      && Describes(snapshot, world(version)) && Sound(work, world(version), snapshot)
    case Finished(_) => true
  }

  predicate SegmentsOK(world: World, version: Version, disk: Disk, checkpoint: TransferCheckpoint) {
    && disk.dest.None? && disk.work.Some?
    && Describes(checkpoint, world(version)) && |disk.work.value| == checkpoint.total
    && Sound(disk.work.value, world(version), checkpoint)
  }

  predicate WorkersOK(world: World, version: Version, work: Bytes, checkpoint: TransferCheckpoint,
                      workers: seq<Worker>) {
    && |workers| == |checkpoint.segments|
    && forall i :: 0 <= i < |workers| ==>
                     WorkerOK(world, version, work, checkpoint.segments[i], checkpoint.total, workers[i])
  }

  predicate SettledTotal(task: Task, size: int) {
    task.state == Downloading && 0 < task.total ==> task.total == size
  }

  predicate ProofOK(world: World, proof: Proof, bytes: Bytes) {
    bytes <= world(proof.version) && (proof.whole ==> bytes == world(proof.version))
  }

  predicate PhaseOK(world: World, validator: Option<Version>, task: Task, request: Request, input: Request, disk: Disk,
                    phase: Phase) {
    match phase
    case Starting => EntryOK(input, disk) && Fits(world, validator, input.allowSegments, input.checkpoint, disk)
    case Requested =>
      && !Segmented(input) && disk.dest.None? && disk.work.Some?
      && |disk.work.value| == input.offset && (0 < input.offset ==> validator.Some?)
    case Body(reply, downloaded, _) =>
      && !Segmented(input) && disk.dest.None? && disk.work.Some?
      && (0 < input.offset ==> validator.Some?)
      && input.offset <= downloaded == |disk.work.value| <= reply.limit
      && reply.limit <= |world(reply.version)|
      && disk.work.value == world(reply.version)[..downloaded]
      && (validator.Some? ==> reply.version == validator.value)
      && (reply.total == -1 || reply.total == |world(reply.version)|)
      && reply.shift == 0 && (0 < input.expectedSize && 0 <= reply.total ==> reply.total == input.expectedSize)
    case Segments(checkpoint, workers, announced) =>
      && Segmented(input) && validator.Some?
      && SegmentsOK(world, validator.value, disk, checkpoint)
      && (announced ==> WorkersOK(world, validator.value, disk.work.value, checkpoint, workers))
    case Settled(checkpoint, clean) =>
      && Segmented(input) && validator.Some?
      && SegmentsOK(world, validator.value, disk, checkpoint)
      && (task.state == Downloading || task.state == Paused ==>
            request.checkpoint == Some(checkpoint) && task.total == checkpoint.total)
    case Sealed(size, proof) =>
      && disk.dest.None? && disk.work.Some? && |disk.work.value| == size
      && ProofOK(world, proof, disk.work.value)
      && (!Segmented(input) ==> input.offset <= size && (0 < input.offset ==> validator.Some?))
      && SettledTotal(task, size)
    case Linked(size) =>
      disk.dest.Some? && |disk.dest.value| == size && disk.linked && SettledTotal(task, size)
    case Returned(Success(size)) =>
      disk.dest.Some? && |disk.dest.value| == size && SettledTotal(task, size)
    case Returned(Failure(fault)) =>
      && disk.dest.None?
      && (task.state == Downloading && fault == Transient && disk.work.Some? ==>
            !Segmented(input) && 0 < |disk.work.value| <= input.offset && validator.Some?)
  }

  predicate RunOK(world: World, validator: Option<Version>, task: Task, request: Request, run: Run, disk: Disk) {
    && run.input.validator == validator
    && SizeOK(world, validator, run.input.acceptRanges, run.input.expectedSize)
    && (run.input.allowSegments ==> run.input.acceptRanges)
    && (!Segmented(run.input) ==> request.expectedSize == run.input.expectedSize && Within(run.input))
    && 0 <= run.input.offset
    && Segmented(run.input) == request.allowSegments
    && (task.state == Downloading ==> run.cause == NoCause)
    && PhaseOK(world, validator, task, request, run.input, disk, run.phase)
  }

  predicate StateOK(task: Task, request: Request, run: Option<Run>, operation: Operation, disk: Disk) {
    match task.state
    case Queued => run.None? && (operation == Idle || operation == Closing) && EntryOK(request, disk)
    case Retrying => run.None? && operation == Idle && EntryOK(request, disk)
    case Downloading => run.Some? && operation == Idle
    case Paused => run.Some? ==> operation == Pausing || operation == Closing
    case Canceled => request.checkpoint.None? && (run.Some? ==> operation == Canceling)
    case Completed => run.None?
    case Failed =>
      && run.None?
      && (task.error.Some? && task.error.value.retryable && disk.work.Some? && !request.allowSegments ==>
            0 < |disk.work.value|)
  }

  predicate MemoryOK(world: World, validator: Option<Version>, c: Cell)
    requires c.memory.Up?
  {
    var task := c.memory.task;
    var request := c.memory.request;
    && c.store.Some? && request.validator == validator && ReadableTask(task)
    && StateOK(task, request, c.memory.run, c.memory.operation, c.disk)
    && (task.state != Completed ==>
          && SizeOK(world, validator, request.acceptRanges, task.total)
          && SizeOK(world, validator, request.acceptRanges, request.expectedSize)
          && TotalsOK(validator, task.total, request.expectedSize)
          && Fits(world, validator, request.allowSegments, request.checkpoint, c.disk)
          && (request.checkpoint.Some? ==> task.total == request.checkpoint.value.total)
          && (request.allowSegments ==>
                && validator.Some? && request.acceptRanges
                && DEFAULT_SEGMENTED_TRANSFER_MIN_SIZE <= task.total
                && DEFAULT_SEGMENTED_TRANSFER_MIN_SIZE <= request.expectedSize))
    && (c.store.value.task.state == Completed ==> task.state == Completed)
    && c.store.value.task.total == task.total
    && c.store.value.acceptRanges == request.acceptRanges
    && (task.state != Canceled ==> c.store.value.checkpoint == request.checkpoint)
    && (c.memory.run.Some? ==>
          && RunOK(world, validator, task, request, c.memory.run.value, c.disk)
          && (!request.allowSegments || FreshStart(c.memory.run.value) ==> c.store.value.checkpoint.None?))
  }

  /** A run that is about to create its work file. */
  predicate FreshStart(run: Run) {
    run.phase.Starting? && run.input.checkpoint.None?
  }

  predicate DiskOK(world: World, c: Cell) {
    && (c.disk.linked ==> c.disk.work.Some? && c.disk.work == c.disk.dest)
    && (c.disk.dest.Some? ==> c.published.Some? && ProofOK(world, c.published.value, c.disk.dest.value))
  }

  /** The invariant of the protocol. */
  predicate Inv(world: World, validator: Option<Version>, c: Cell) {
    && DiskOK(world, c)
    && (c.store.Some? ==> RecordOK(world, validator, c.store.value, c.disk))
    && (c.memory.Up? ==> MemoryOK(world, validator, c))
  }

  // ---------------------------------------------------------------------
  // Bytes

  lemma PrefixGrows(remote: Bytes, downloaded: nat, count: nat)
    requires downloaded + count <= |remote|
    ensures remote[..downloaded] + remote[downloaded..downloaded + count] == remote[..downloaded + count]
  {
  }

  /** Writing the right bytes at their own position keeps every agreement with the remote file. */
  lemma WriteKeepsAgreement(work: Bytes, remote: Bytes, position: int, count: nat, lo: int, hi: int)
    requires 0 <= position <= position + count <= |work| == |remote|
    requires Agree(work, remote, lo, hi)
    ensures Agree(WriteAt(work, position, remote[position..position + count]), remote, lo, hi)
  {
    var written := WriteAt(work, position, remote[position..position + count]);
    forall p | lo <= p < hi ensures written[p] == remote[p] {
      if p < position || position + count <= p {
        assert work[lo..hi][p - lo] == remote[lo..hi][p - lo];
      }
    }
  }

  lemma WriteExtendsAgreement(work: Bytes, remote: Bytes, lo: int, position: int, count: nat)
    requires 0 <= position <= position + count <= |work| == |remote|
    requires Agree(work, remote, lo, position)
    ensures Agree(WriteAt(work, position, remote[position..position + count]), remote, lo, position + count)
  {
    WriteKeepsAgreement(work, remote, position, count, lo, position);
    var written := WriteAt(work, position, remote[position..position + count]);
    assert written[lo..position + count] == written[lo..position] + written[position..position + count];
    assert remote[lo..position + count] == remote[lo..position] + remote[position..position + count];
  }

  lemma WriteKeepsSound(work: Bytes, remote: Bytes, position: int, count: nat, checkpoint: TransferCheckpoint)
    requires 0 <= position <= position + count <= |work| == |remote|
    requires Sound(work, remote, checkpoint)
    ensures Sound(WriteAt(work, position, remote[position..position + count]), remote, checkpoint)
  {
    var written := WriteAt(work, position, remote[position..position + count]);
    forall i | 0 <= i < |checkpoint.segments| ensures SegmentSound(written, remote, checkpoint.segments[i]) {
      assert SegmentSound(work, remote, checkpoint.segments[i]);
      WriteKeepsAgreement(work, remote, position, count, checkpoint.segments[i].start,
                          checkpoint.segments[i].start + checkpoint.segments[i].completed);
    }
  }

  /** A sound checkpoint that counts every byte means the file is the remote file. */
  lemma CompleteCheckpointIsWhole(work: Bytes, remote: Bytes, checkpoint: TransferCheckpoint)
    requires Describes(checkpoint, remote) && |work| == checkpoint.total
    requires Sound(work, remote, checkpoint)
    requires Downloaded(checkpoint) == checkpoint.total
    ensures work == remote
  {
    DownloadedBounds(checkpoint, checkpoint.total);
    forall p | 0 <= p < |work| ensures work[p] == remote[p] {
      var i := SegmentAt(checkpoint.segments, 0, checkpoint.total, p);
      var segment := checkpoint.segments[i];
      assert SegmentSound(work, remote, segment);
      assert work[segment.start..segment.end + 1][p - segment.start]
             == remote[segment.start..segment.end + 1][p - segment.start];
    }
  }

  lemma FreshIsSound(work: Bytes, remote: Bytes)
    requires |work| == |remote| && DEFAULT_SEGMENTED_TRANSFER_MIN_SIZE <= |remote|
    ensures var layout := FreshCheckpoint(|remote|, SEGMENTED_CONNECTION_COUNT);
            Describes(layout, remote) && Sound(work, remote, layout) && Downloaded(layout) == 0
  {
    var layout := FreshCheckpoint(|remote|, SEGMENTED_CONNECTION_COUNT);
    FreshCheckpointValid(|remote|, SEGMENTED_CONNECTION_COUNT);
    forall i | 0 <= i < |layout.segments| ensures SegmentSound(work, remote, layout.segments[i]) {
      TilesSplit(layout.segments, 0, layout.total, i);
    }
  }

  // ---------------------------------------------------------------------
  // The manager's operations keep the invariant

  lemma PartialProgressBounds(world: World, validator: Option<Version>, task: Task, request: Request, disk: Disk)
    requires PartialProgress(task, request, disk).Some?
    ensures 0 <= PartialProgress(task, request, disk).value
  {
    if request.checkpoint.Some? {
      DownloadedBounds(request.checkpoint.value, task.total);
    }
  }

  lemma StartKeeps(world: World, validator: Option<Version>, c: Cell)
    requires Inv(world, validator, c) && c.memory.Up? && StartStep(c).Some?
    ensures Inv(world, validator, StartStep(c).value)
  {
    if c.memory.request.checkpoint.Some? {
      DownloadedBounds(c.memory.request.checkpoint.value, c.memory.request.expectedSize);
    }
  }

  lemma PauseKeeps(world: World, validator: Option<Version>, c: Cell)
    requires Inv(world, validator, c) && c.memory.Up? && PauseStep(c).Some?
    ensures Inv(world, validator, PauseStep(c).value)
  {
  }

  lemma SignalKeeps(world: World, validator: Option<Version>, c: Cell)
    requires Inv(world, validator, c) && c.memory.Up? && SignalStep(c).Some?
    ensures Inv(world, validator, SignalStep(c).value)
  {
  }

  lemma FinishPauseKeeps(world: World, validator: Option<Version>, c: Cell, saved: bool)
    requires Inv(world, validator, c) && c.memory.Up? && FinishPauseStep(c, saved).Some?
    ensures Inv(world, validator, FinishPauseStep(c, saved).value)
  {
    hide RunOK, PartialProgress;
    if PartialProgress(c.memory.task, c.memory.request, c.disk).Some? {
      PartialProgressBounds(world, validator, c.memory.task, c.memory.request, c.disk);
    }
  }

  lemma ResumeKeeps(world: World, validator: Option<Version>, c: Cell, saved: bool)
    requires Inv(world, validator, c) && c.memory.Up? && ResumeStep(c, saved).Some?
    ensures Inv(world, validator, ResumeStep(c, saved).value)
  {
    PartialProgressBounds(world, validator, c.memory.task, c.memory.request, c.disk);
  }

  lemma RetryNowKeeps(world: World, validator: Option<Version>, c: Cell, saved: bool)
    requires Inv(world, validator, c) && c.memory.Up? && RetryNowStep(c, saved).Some?
    ensures Inv(world, validator, RetryNowStep(c, saved).value)
  {
  }

  lemma RetryDueKeeps(world: World, validator: Option<Version>, c: Cell)
    requires Inv(world, validator, c) && c.memory.Up? && RetryDueStep(c).Some?
    ensures Inv(world, validator, RetryDueStep(c).value)
  {
  }

  lemma CancelKeeps(world: World, validator: Option<Version>, c: Cell, saved: bool)
    requires Inv(world, validator, c) && c.memory.Up? && CancelStep(c, saved).Some?
    ensures Inv(world, validator, CancelStep(c, saved).value)
  {
    hide PhaseOK;
    if c.memory.run.Some? {
      CanceledPhase(world, validator, c.memory.task, c.memory.request, c.memory.run.value.input, c.disk,
                    c.memory.run.value.phase);
    }
  }

  /** Canceling leaves the transfer goroutine where it is. */
  lemma CanceledPhase(world: World, validator: Option<Version>, task: Task, request: Request, input: Request,
                      disk: Disk, phase: Phase)
    requires PhaseOK(world, validator, task, request, input, disk, phase)
    ensures PhaseOK(world, validator, CanceledTask(task), request.(checkpoint := None), input, disk, phase)
  {
  }

  lemma FinishCancelKeeps(world: World, validator: Option<Version>, c: Cell)
    requires Inv(world, validator, c) && c.memory.Up? && FinishCancelStep(c).Some?
    ensures Inv(world, validator, FinishCancelStep(c).value)
  {
  }

  lemma CloseKeeps(world: World, validator: Option<Version>, c: Cell, now: Time)
    requires Inv(world, validator, c) && c.memory.Up? && CloseStep(c, now).Some?
    ensures Inv(world, validator, CloseStep(c, now).value)
  {
    if IsActiveState(c.memory.task.state) && CloseStep(c, now).value.memory.task.state == Paused {
      ClosePauses(world, validator, c, now);
    }
  }

  lemma ClosePauses(world: World, validator: Option<Version>, c: Cell, now: Time)
    requires Inv(world, validator, c) && c.memory.Up? && IsActiveState(c.memory.task.state)
    requires CloseStep(c, now).Some? && CloseStep(c, now).value.memory.task.state == Paused
    ensures Inv(world, validator, CloseStep(c, now).value)
  {
  }

  lemma FinishCloseKeeps(world: World, validator: Option<Version>, c: Cell, saved: bool)
    requires Inv(world, validator, c) && c.memory.Up? && FinishCloseStep(c, saved).Some?
    ensures Inv(world, validator, FinishCloseStep(c, saved).value)
  {
    if PartialProgress(c.memory.task, c.memory.request, c.disk).Some? {
      PartialProgressBounds(world, validator, c.memory.task, c.memory.request, c.disk);
    }
  }

  lemma DeleteKeeps(world: World, validator: Option<Version>, c: Cell, deleteFile: bool, removed: bool)
    requires Inv(world, validator, c) && c.memory.Up? && DeleteStep(c, deleteFile, removed).Some?
    ensures Inv(world, validator, DeleteStep(c, deleteFile, removed).value)
  {
  }

  /** A stored record reads the files rightly even if the engine crashed after it removed the work file. */
  lemma CrashInExitKeeps(world: World, validator: Option<Version>, c: Cell)
    requires Inv(world, validator, c) && c.memory.Up? && CrashInExitStep(c).Some?
    ensures Inv(world, validator, CrashInExitStep(c).value)
  {
  }

  /** What an interrupted task becomes satisfies everything the manager relies on. */
  lemma InterruptedKeeps(world: World, validator: Option<Version>, record: StoredTask, disk: Disk)
    requires RecordOK(world, validator, record, disk) && record.task.state != Completed
    requires disk.linked ==> disk.work.Some? && disk.work == disk.dest
    ensures var after := InterruptedOutcome(record.task, RestoredRequest(record), disk);
            && ReadableTask(after.task) && StateOK(after.task, after.request, None, Idle, after.disk)
            && after.request.validator == validator
            && (after.task.state != Completed ==>
                  && SizeOK(world, validator, after.request.acceptRanges, after.task.total)
                  && SizeOK(world, validator, after.request.acceptRanges, after.request.expectedSize)
                  && TotalsOK(validator, after.task.total, after.request.expectedSize)
                  && (after.request.checkpoint.Some? ==>
                        after.request.checkpoint == record.checkpoint && after.disk == disk)
                  && (after.request.checkpoint.Some? ==> after.task.total == after.request.checkpoint.value.total)
                  && (after.request.checkpoint.None? && validator.Some? && after.disk.work.Some?
                      && !after.request.allowSegments ==>
                        after.disk.work.value <= world(validator.value))
                  && (after.request.allowSegments && (validator.Some? || after.request.checkpoint.Some?) ==>
                        && after.request.acceptRanges
                        && DEFAULT_SEGMENTED_TRANSFER_MIN_SIZE <= after.task.total
                        && DEFAULT_SEGMENTED_TRANSFER_MIN_SIZE <= after.request.expectedSize))
  {
    if record.checkpoint.Some? {
      DownloadedBounds(record.checkpoint.value, record.checkpoint.value.total);
    }
  }

  lemma RestoreKeeps(world: World, validator: Option<Version>, c: Cell, now: Time, saved: bool)
    requires Inv(world, validator, c) && RestoreStep(c, now, saved).Some?
    ensures Inv(world, validator, RestoreStep(c, now, saved).value)
  {
    RecoveryOnlyRemovesWork(c.store.value, c.disk, now);
    if saved {
      RecoveredKeeps(world, validator, c, now);
    }
  }

  lemma RecoveredKeeps(world: World, validator: Option<Version>, c: Cell, now: Time)
    requires Inv(world, validator, c) && RestoreStep(c, now, true).Some?
    ensures MemoryOK(world, validator, RestoreStep(c, now, true).value)
    ensures var after := RestoreStep(c, now, true).value; RecordOK(world, validator, after.store.value, after.disk)
  {
    var record := c.store.value;
    var recovered := Reconcile(record, c.disk, now).value;
    RecoveredFits(world, validator, record, c.disk, now);
  }

  /** The task and request recovery leaves read the files rightly. */
  predicate RecoveredOK(world: World, validator: Option<Version>, after: Recovered) {
    && ReadableTask(after.task) && StateOK(after.task, after.request, None, Idle, after.disk)
    && after.request.validator == validator
    && (after.task.state != Completed ==>
          && SizeOK(world, validator, after.request.acceptRanges, after.task.total)
          && SizeOK(world, validator, after.request.acceptRanges, after.request.expectedSize)
          && TotalsOK(validator, after.task.total, after.request.expectedSize)
          && Fits(world, validator, after.request.allowSegments, after.request.checkpoint, after.disk)
          && (after.request.checkpoint.Some? ==> after.task.total == after.request.checkpoint.value.total)
          && (after.request.allowSegments ==>
                && validator.Some? && after.request.acceptRanges
                && DEFAULT_SEGMENTED_TRANSFER_MIN_SIZE <= after.task.total
                && DEFAULT_SEGMENTED_TRANSFER_MIN_SIZE <= after.request.expectedSize))
  }

  lemma InterruptedRecoveredFits(world: World, validator: Option<Version>, record: StoredTask, disk: Disk, now: Time)
    requires RecordOK(world, validator, record, disk) && IsInterrupted(record, disk, now)
    requires disk.linked ==> disk.work.Some? && disk.work == disk.dest
    ensures Reconcile(record, disk, now).Some? && RecoveredOK(world, validator, Reconcile(record, disk, now).value)
  {
    hide Sound;
    InterruptedKeeps(world, validator, record, disk);
  }

  lemma RestingRecoveredFits(world: World, validator: Option<Version>, record: StoredTask, disk: Disk, now: Time)
    requires RecordOK(world, validator, record, disk) && !IsInterrupted(record, disk, now)
    ensures Reconcile(record, disk, now).Some? && RecoveredOK(world, validator, Reconcile(record, disk, now).value)
  {
    hide Sound, InterruptedOutcome;
  }

  /** Whatever recovery decides, the request it leaves reads the files rightly. */
  lemma RecoveredFits(world: World, validator: Option<Version>, record: StoredTask, disk: Disk, now: Time)
    requires RecordOK(world, validator, record, disk)
    requires disk.linked ==> disk.work.Some? && disk.work == disk.dest
    ensures Reconcile(record, disk, now).Some? && RecoveredOK(world, validator, Reconcile(record, disk, now).value)
  {
    hide RecordOK, RecoveredOK, Reconcile;
    if IsInterrupted(record, disk, now) {
      InterruptedRecoveredFits(world, validator, record, disk, now);
    } else {
      RestingRecoveredFits(world, validator, record, disk, now);
    }
  }

  // ---------------------------------------------------------------------
  // The transfer goroutine keeps it

  lemma FailKeeps(world: World, validator: Option<Version>, c: Cell, fault: Fault)
    requires Inv(world, validator, c) && c.memory.Up? && c.memory.run.Some?
    requires var phase := c.memory.run.value.phase; phase.Requested? || phase.Body? || phase.Settled? || phase.Sealed?
    ensures Inv(world, validator, Fail(c, fault))
  {
  }

  lemma BeginKeeps(world: World, validator: Option<Version>, c: Cell, openOk: bool)
    requires Inv(world, validator, c) && c.memory.Up? && c.memory.run.Some? && c.memory.run.value.phase.Starting?
    ensures Inv(world, validator, Begin(world, c, openOk))
  {
    if Segmented(c.memory.run.value.input) {
      BeginSegmentedKeeps(world, validator, c, openOk);
    } else {
      BeginSingleKeeps(world, validator, c, openOk);
    }
  }

  lemma RefuseKeeps(world: World, validator: Option<Version>, c: Cell)
    requires Inv(world, validator, c) && c.memory.Up? && c.memory.run.Some? && c.memory.run.value.phase.Starting?
    ensures Inv(world, validator, WithPhase(c, Returned(Failure(Permanent))))
  {
  }

  lemma BeginSingleKeeps(world: World, validator: Option<Version>, c: Cell, openOk: bool)
    requires Inv(world, validator, c) && c.memory.Up? && c.memory.run.Some? && c.memory.run.value.phase.Starting?
    requires !Segmented(c.memory.run.value.input)
    ensures Inv(world, validator, Begin(world, c, openOk))
  {
    if Begin(world, c, openOk) == WithPhase(c, Returned(Failure(Permanent))) {
      RefuseKeeps(world, validator, c);
    } else if c.memory.run.value.input.offset == 0 {
      CreateKeeps(world, validator, c);
    }
  }

  lemma CreateKeeps(world: World, validator: Option<Version>, c: Cell)
    requires Inv(world, validator, c) && c.memory.Up? && c.memory.run.Some? && c.memory.run.value.phase.Starting?
    requires !Segmented(c.memory.run.value.input) && c.memory.run.value.input.offset == 0
    ensures Inv(world, validator, WithPhase(c, Requested).(disk := c.disk.WriteWork([])))
  {
  }

  lemma BeginSegmentedKeeps(world: World, validator: Option<Version>, c: Cell, openOk: bool)
    requires Inv(world, validator, c) && c.memory.Up? && c.memory.run.Some? && c.memory.run.value.phase.Starting?
    requires Segmented(c.memory.run.value.input)
    ensures Inv(world, validator, Begin(world, c, openOk))
  {
    var input := c.memory.run.value.input;
    if Begin(world, c, openOk) == WithPhase(c, Returned(Failure(Permanent))) {
      RefuseKeeps(world, validator, c);
    } else if input.checkpoint.None? {
      PreallocateKeeps(world, validator, c);
    }
  }

  lemma PreallocateKeeps(world: World, validator: Option<Version>, c: Cell)
    requires Inv(world, validator, c) && c.memory.Up? && c.memory.run.Some? && FreshStart(c.memory.run.value)
    requires Segmented(c.memory.run.value.input)
    ensures var layout := FreshCheckpoint(c.memory.run.value.input.expectedSize, SEGMENTED_CONNECTION_COUNT);
            Inv(world, validator,
                WithPhase(c, Segments(layout, [], false)).(disk := c.disk.WriteWork(Truncated([], layout.total))))
  {
    FreshIsSound(Truncated([], c.memory.run.value.input.expectedSize), world(validator.value));
  }

  lemma DeliverKeeps(world: World, validator: Option<Version>, c: Cell, downloaded: int, total: int)
    requires Inv(world, validator, c) && c.memory.Up? && c.memory.run.Some? && c.memory.run.value.phase.Body?
    requires 0 <= downloaded && -1 <= total && (validator.Some? ==> total == -1 || total == |world(validator.value)|)
    requires 0 < c.memory.run.value.input.expectedSize && 0 <= total ==> total == c.memory.run.value.input.expectedSize
    ensures Inv(world, validator, Deliver(c, downloaded, total, None))
  {
  }

  lemma DeliverCheckpointKeeps(world: World, validator: Option<Version>, c: Cell, checkpoint: TransferCheckpoint)
    requires Inv(world, validator, c) && c.memory.Up? && c.memory.run.Some? && c.memory.run.value.phase.Segments?
    requires validator.Some? && Describes(checkpoint, world(validator.value))
    requires c.disk.work.Some? && Sound(c.disk.work.value, world(validator.value), checkpoint)
    ensures Inv(world, validator, DeliverCheckpoint(c, checkpoint))
    ensures DeliverCheckpoint(c, checkpoint).disk == c.disk
    ensures DeliverCheckpoint(c, checkpoint).memory.Up? && DeliverCheckpoint(c, checkpoint).memory.run == c.memory.run
    ensures var after := DeliverCheckpoint(c, checkpoint).memory;
            after.task.state == c.memory.task.state
            && (after.task.state == Downloading || after.task.state == Paused ==>
                  after.request.checkpoint == Some(checkpoint) && after.task.total == checkpoint.total)
  {
    DownloadedBounds(checkpoint, checkpoint.total);
  }

  lemma BreakOffKeeps(world: World, validator: Option<Version>, c: Cell, fault: Fault)
    requires Inv(world, validator, c) && c.memory.Up? && c.memory.run.Some?
    requires BreakOffStep(c, fault).Some?
    ensures Inv(world, validator, BreakOffStep(c, fault).value)
  {
    FailKeeps(world, validator, c, fault);
  }

  lemma RespondKeeps(world: World, validator: Option<Version>, c: Cell, response: Response)
    requires Inv(world, validator, c) && c.memory.Up? && c.memory.run.Some? && HonestEvent(world, c, Respond(response))
    requires RespondStep(world, c, response).Some?
    ensures Inv(world, validator, RespondStep(world, c, response).value)
  {
    var (reply, fault) := AcceptReply(world, c.memory.run.value.input, response);
    if reply.None? {
      FailKeeps(world, validator, c, fault);
    }
  }

  lemma ReceiveKeeps(world: World, validator: Option<Version>, c: Cell, count: nat)
    requires Inv(world, validator, c) && c.memory.Up? && c.memory.run.Some?
    requires ReceiveStep(world, c, count).Some?
    ensures Inv(world, validator, ReceiveStep(world, c, count).value)
  {
    var phase := c.memory.run.value.phase;
    PrefixGrows(world(phase.reply.version), phase.downloaded, count);
  }

  lemma ReportKeeps(world: World, validator: Option<Version>, c: Cell, first: bool)
    requires Inv(world, validator, c) && c.memory.Up? && c.memory.run.Some? && ReportStep(c, first).Some?
    ensures Inv(world, validator, ReportStep(c, first).value)
  {
    var phase := c.memory.run.value.phase;
    DeliverKeeps(world, validator, c, phase.downloaded, phase.reply.total);
  }

  lemma EndOfBodyKeeps(world: World, validator: Option<Version>, c: Cell)
    requires Inv(world, validator, c) && c.memory.Up? && c.memory.run.Some?
    requires EndOfBodyStep(world, c).Some?
    ensures Inv(world, validator, EndOfBodyStep(world, c).value)
  {
    var phase := c.memory.run.value.phase;
    var reported := Deliver(c, phase.downloaded, phase.reply.total, None);
    DeliverKeeps(world, validator, c, phase.downloaded, phase.reply.total);
    if EndOfBodyStep(world, c).value == Fail(reported, Permanent) {
      FailKeeps(world, validator, reported, Permanent);
    } else {
      SealKeeps(world, validator, c);
    }
  }

  /** Passing the size checks at the end of a body proves what the code publishes. */
  lemma SealKeeps(world: World, validator: Option<Version>, c: Cell)
    requires c.memory.Up? && c.memory.run.Some? && c.memory.run.value.phase.Body?
    requires Inv(world, validator, c)
    requires var phase := c.memory.run.value.phase;
             var reported := Deliver(c, phase.downloaded, phase.reply.total, None);
             && (phase.reply.framed ==> phase.downloaded == phase.reply.limit)
             && Inv(world, validator, reported) && FinishBody(world, c) != Fail(reported, Permanent)
    ensures Inv(world, validator, FinishBody(world, c))
  {
    var remote := world(c.memory.run.value.phase.reply.version);
    assert remote[..|remote|] == remote;
  }

  lemma ConcludeKeeps(world: World, validator: Option<Version>, c: Cell)
    requires Inv(world, validator, c) && c.memory.Up? && c.memory.run.Some?
    requires SegmentsConcludeStep(c).Some?
    ensures Inv(world, validator, SegmentsConcludeStep(c).value)
  {
    var checkpoint := c.memory.run.value.phase.checkpoint;
    FailKeeps(world, validator, c, Permanent);
    if Downloaded(checkpoint) == checkpoint.total {
      CompleteCheckpointIsWhole(c.disk.work.value, world(validator.value), checkpoint);
    }
  }

  lemma LinkKeeps(world: World, validator: Option<Version>, c: Cell, ok: bool)
    requires Inv(world, validator, c) && c.memory.Up? && c.memory.run.Some?
    requires LinkStep(c, ok).Some?
    ensures Inv(world, validator, LinkStep(c, ok).value)
  {
    FailKeeps(world, validator, c, Permanent);
  }

  lemma UnlinkKeeps(world: World, validator: Option<Version>, c: Cell, ok: bool)
    requires Inv(world, validator, c) && c.memory.Up? && c.memory.run.Some?
    requires UnlinkStep(c, ok).Some?
    ensures Inv(world, validator, UnlinkStep(c, ok).value)
  {
  }

  lemma ExitKeeps(world: World, validator: Option<Version>, c: Cell, maxRetries: nat, retryAt: Time)
    requires Inv(world, validator, c) && c.memory.Up? && c.memory.run.Some?
    requires ExitStep(c, maxRetries, retryAt).Some?
    ensures Inv(world, validator, ExitStep(c, maxRetries, retryAt).value)
  {
    if c.memory.task.state == Downloading {
      if ExitStep(c, maxRetries, retryAt).value.memory.task.state == Retrying {
        ExitToRetryKeeps(world, validator, c, maxRetries, retryAt);
      } else {
        ExitForGoodKeeps(world, validator, c, maxRetries, retryAt);
      }
    }
  }

  lemma ExitToRetryKeeps(world: World, validator: Option<Version>, c: Cell, maxRetries: nat, retryAt: Time)
    requires Inv(world, validator, c) && c.memory.Up? && c.memory.run.Some? && c.memory.task.state == Downloading
    requires ExitStep(c, maxRetries, retryAt).Some?
    requires ExitStep(c, maxRetries, retryAt).value.memory.task.state == Retrying
    ensures Inv(world, validator, ExitStep(c, maxRetries, retryAt).value)
  {
  }

  lemma ExitForGoodKeeps(world: World, validator: Option<Version>, c: Cell, maxRetries: nat, retryAt: Time)
    requires Inv(world, validator, c) && c.memory.Up? && c.memory.run.Some? && c.memory.task.state == Downloading
    requires ExitStep(c, maxRetries, retryAt).Some?
    requires ExitStep(c, maxRetries, retryAt).value.memory.task.state != Retrying
    ensures Inv(world, validator, ExitStep(c, maxRetries, retryAt).value)
  {
  }

  // ---------------------------------------------------------------------
  // Segment workers

  lemma WorkerMoveKeeps(world: World, validator: Option<Version>, c: Cell, i: nat, worker: Worker)
    requires Inv(world, validator, c) && c.memory.Up? && c.memory.run.Some?
    requires HasWorker(c, i)
    requires var checkpoint := c.memory.run.value.phase.checkpoint;
             WorkerOK(world, validator.value, c.disk.work.value, checkpoint.segments[i], checkpoint.total, worker)
    ensures Inv(world, validator, WithWorker(c, i, worker))
  {
  }

  lemma WriteKeepsFits(world: World, validator: Option<Version>, checkpoint: Option<TransferCheckpoint>, disk: Disk,
                       position: int, count: nat)
    requires validator.Some? && disk.work.Some?
    requires 0 <= position <= position + count <= |disk.work.value| == |world(validator.value)|
    requires Fits(world, validator, true, checkpoint, disk)
    ensures var written := WriteAt(disk.work.value, position, world(validator.value)[position..position + count]);
            Fits(world, validator, true, checkpoint, disk.WriteWork(written))
  {
    if checkpoint.Some? {
      WriteKeepsSound(disk.work.value, world(validator.value), position, count, checkpoint.value);
    }
  }

  /** The byte the worker writes next. */
  function WritePosition(c: Cell, i: nat): int
    requires c.memory.Up? && c.memory.run.Some? && HasWorker(c, i) && c.memory.run.value.phase.workers[i].Receiving?
  {
    var segment := c.memory.run.value.phase.checkpoint.segments[i];
    segment.start + segment.completed + c.memory.run.value.phase.workers[i].ahead
  }

  predicate WritesInside(world: World, version: Version, c: Cell, i: nat, count: nat)
    requires c.memory.Up? && c.memory.run.Some? && HasWorker(c, i) && c.memory.run.value.phase.workers[i].Receiving?
  {
    var segment := c.memory.run.value.phase.checkpoint.segments[i];
    && segment.completed + c.memory.run.value.phase.workers[i].ahead + count <= segment.Length()
    && 0 <= segment.start <= WritePosition(c, i)
    && WritePosition(c, i) + count <= segment.end + 1 <= |c.disk.work.value| == |world(version)|
  }

  function Written(world: World, version: Version, c: Cell, i: nat, count: nat): Bytes
    requires c.memory.Up? && c.memory.run.Some? && HasWorker(c, i) && c.memory.run.value.phase.workers[i].Receiving?
    requires WritesInside(world, version, c, i, count)
  {
    var position := WritePosition(c, i);
    WriteAt(c.disk.work.value, position, world(version)[position..position + count])
  }

  /** What the segmented phase knows about the file, the workers and the two copies of the checkpoint. */
  predicate SegmentFacts(world: World, validator: Option<Version>, c: Cell)
    requires c.memory.Up? && c.memory.run.Some? && c.memory.run.value.phase.Segments?
  {
    var phase := c.memory.run.value.phase;
    && validator.Some? && c.store.Some?
    && SegmentsOK(world, validator.value, c.disk, phase.checkpoint)
    && (phase.announced ==> WorkersOK(world, validator.value, c.disk.work.value, phase.checkpoint, phase.workers))
    && Fits(world, validator, true, c.memory.request.checkpoint, c.disk)
    && Fits(world, validator, true, c.store.value.checkpoint, c.disk)
  }

  lemma InvGivesSegmentFacts(world: World, validator: Option<Version>, c: Cell)
    requires Inv(world, validator, c) && c.memory.Up? && c.memory.run.Some? && c.memory.run.value.phase.Segments?
    ensures SegmentFacts(world, validator, c)
  {
  }

  /** Where a worker writes next lies in its own segment, inside the file. */
  lemma WorkerPosition(world: World, version: Version, c: Cell, i: nat, count: nat)
    requires c.memory.Up? && c.memory.run.Some? && HasWorker(c, i) && SegmentFacts(world, Some(version), c)
    requires c.memory.run.value.phase.workers[i].Receiving?
    requires var segment := c.memory.run.value.phase.checkpoint.segments[i];
             segment.completed + c.memory.run.value.phase.workers[i].ahead + count <= segment.Length()
    ensures c.memory.run.value.phase.workers[i].version == version
    ensures WritesInside(world, version, c, i, count)
  {
    var phase := c.memory.run.value.phase;
    assert WorkerOK(world, version, c.disk.work.value, phase.checkpoint.segments[i], phase.checkpoint.total,
                    phase.workers[i]);
    TilesSplit(phase.checkpoint.segments, 0, phase.checkpoint.total, i);
  }

  /** The write is right for the checkpoint in use and for both copies kept of earlier ones. */
  lemma WriteIsRight(world: World, version: Version, c: Cell, i: nat, count: nat)
    requires c.memory.Up? && c.memory.run.Some? && HasWorker(c, i) && SegmentFacts(world, Some(version), c)
    requires c.memory.run.value.phase.workers[i].Receiving? && WritesInside(world, version, c, i, count)
    ensures var written := Written(world, version, c, i, count);
            && Sound(written, world(version), c.memory.run.value.phase.checkpoint)
            && Fits(world, Some(version), true, c.memory.request.checkpoint, c.disk.WriteWork(written))
            && Fits(world, Some(version), true, c.store.value.checkpoint, c.disk.WriteWork(written))
  {
    var position := WritePosition(c, i);
    WriteKeepsSound(c.disk.work.value, world(version), position, count, c.memory.run.value.phase.checkpoint);
    WriteKeepsFits(world, Some(version), c.memory.request.checkpoint, c.disk, position, count);
    WriteKeepsFits(world, Some(version), c.store.value.checkpoint, c.disk, position, count);
  }

  /** The write is right for every worker, the one that writes and the others. */
  lemma WriteIsRightForWorkers(world: World, version: Version, c: Cell, i: nat, count: nat)
    requires c.memory.Up? && c.memory.run.Some? && HasWorker(c, i) && SegmentFacts(world, Some(version), c)
    requires c.memory.run.value.phase.workers[i].Receiving? && WritesInside(world, version, c, i, count)
    ensures var phase := c.memory.run.value.phase;
            WorkersOK(world, version, Written(world, version, c, i, count), phase.checkpoint,
                      phase.workers[i := Receiving(version, phase.workers[i].ahead + count)])
  {
    var phase := c.memory.run.value.phase;
    WriteKeepsWorkers(world, version, c.disk.work.value, phase.checkpoint, phase.workers, WritePosition(c, i), count,
                      i);
  }

  lemma WriteKeeps(world: World, validator: Option<Version>, c: Cell, i: nat, count: nat)
    requires Inv(world, validator, c) && c.memory.Up? && c.memory.run.Some?
    requires SegmentWriteStep(world, c, i, count).Some?
    ensures Inv(world, validator, SegmentWriteStep(world, c, i, count).value)
  {
    hide Inv, Sound, Describes, WorkersOK;
    var phase := c.memory.run.value.phase;
    var segment := phase.checkpoint.segments[i];
    if segment.Length() < segment.completed + phase.workers[i].ahead + count {
      WorkerMoveKeeps(world, validator, c, i, Finished(false));
    } else {
      InvGivesSegmentFacts(world, validator, c);
      WorkerPosition(world, validator.value, c, i, count);
      RightWriteKeeps(world, validator, c, i, count);
    }
  }

  /** A write of one worker is right for every segment, every report in flight and every stored checkpoint. */
  lemma RightWriteKeeps(world: World, validator: Option<Version>, c: Cell, i: nat, count: nat)
    requires Inv(world, validator, c) && c.memory.Up? && c.memory.run.Some? && HasWorker(c, i)
    requires c.memory.run.value.phase.workers[i].Receiving? && validator.Some?
    requires SegmentFacts(world, validator, c) && WritesInside(world, validator.value, c, i, count)
    ensures Inv(world, validator,
                WithWorker(c, i, Receiving(validator.value, c.memory.run.value.phase.workers[i].ahead + count))
                .(disk := c.disk.WriteWork(Written(world, validator.value, c, i, count))))
  {
    WriteIsRight(world, validator.value, c, i, count);
    WriteIsRightForWorkers(world, validator.value, c, i, count);
  }

  lemma WriteKeepsWorkers(world: World, version: Version, work: Bytes, checkpoint: TransferCheckpoint,
                          workers: seq<Worker>, position: int, count: nat, i: nat)
    requires 0 <= position <= position + count <= |work| == |world(version)|
    requires WorkersOK(world, version, work, checkpoint, workers)
    requires i < |workers| && workers[i].Receiving?
    requires position == checkpoint.segments[i].start + checkpoint.segments[i].completed + workers[i].ahead
    requires checkpoint.segments[i].completed + workers[i].ahead + count <= checkpoint.segments[i].Length()
    ensures var written := WriteAt(work, position, world(version)[position..position + count]);
            WorkersOK(world, version, written, checkpoint, workers[i := Receiving(version, workers[i].ahead + count)])
  {
    var remote := world(version);
    var written := WriteAt(work, position, remote[position..position + count]);
    var moved := workers[i := Receiving(version, workers[i].ahead + count)];
    forall j | 0 <= j < |moved|
      ensures WorkerOK(world, version, written, checkpoint.segments[j], checkpoint.total, moved[j])
    {
      assert WorkerOK(world, version, work, checkpoint.segments[j], checkpoint.total, workers[j]);
      var segment := checkpoint.segments[j];
      if j == i {
        WriteExtendsAgreement(work, remote, segment.start, position, count);
      } else {
        match workers[j] {
          case Receiving(_, ahead) =>
            WriteKeepsAgreement(work, remote, position, count, segment.start,
                                segment.start + segment.completed + ahead);
          case Reporting(_, snapshot) =>
            WriteKeepsSound(work, remote, position, count, snapshot);
          case _ =>
        }
      }
    }
  }

  /** Counting written bytes keeps the shared checkpoint sound, so any snapshot of it is sound too. */
  lemma CountKeepsCheckpoint(world: World, version: Version, disk: Disk, checkpoint: TransferCheckpoint, i: nat,
                             count: nat)
    requires SegmentsOK(world, version, disk, checkpoint) && i < |checkpoint.segments|
    requires var segment := checkpoint.segments[i];
             && segment.completed + count <= segment.Length()
             && Agree(disk.work.value, world(version), segment.start, segment.start + segment.completed + count)
    ensures SegmentsOK(world, version, disk, CountBytes(checkpoint, i, count))
  {
    var segment := checkpoint.segments[i];
    AdvanceSegment(checkpoint.segments, 0, checkpoint.total, i, segment.completed + count);
    var counted := CountBytes(checkpoint, i, count);
    forall j | 0 <= j < |counted.segments| ensures SegmentSound(disk.work.value, world(version), counted.segments[j]) {
      if j != i {
        assert SegmentSound(disk.work.value, world(version), checkpoint.segments[j]);
      }
    }
  }

  lemma CountKeeps(world: World, validator: Option<Version>, c: Cell, i: nat, report: bool)
    requires Inv(world, validator, c) && c.memory.Up? && c.memory.run.Some?
    requires SegmentCountStep(c, i, report).Some?
    ensures Inv(world, validator, SegmentCountStep(c, i, report).value)
  {
    var phase := c.memory.run.value.phase;
    var Receiving(version, ahead) := phase.workers[i];
    assert WorkerOK(world, version, c.disk.work.value, phase.checkpoint.segments[i], phase.checkpoint.total,
                    phase.workers[i]);
    CountKeepsCheckpoint(world, version, c.disk, phase.checkpoint, i, ahead);
    var counted := CountBytes(phase.checkpoint, i, ahead);
    assert SegmentSound(c.disk.work.value, world(version), counted.segments[i]);
    forall j | 0 <= j < |phase.workers| && j != i
      ensures WorkerOK(world, version, c.disk.work.value, counted.segments[j], counted.total, phase.workers[j])
    {
      assert WorkerOK(world, version, c.disk.work.value, phase.checkpoint.segments[j], phase.checkpoint.total,
                      phase.workers[j]);
    }
  }

  lemma WorkerDeliverKeeps(world: World, validator: Option<Version>, c: Cell, i: nat)
    requires Inv(world, validator, c) && c.memory.Up? && c.memory.run.Some?
    requires SegmentDeliverStep(c, i).Some?
    ensures Inv(world, validator, SegmentDeliverStep(c, i).value)
  {
    var phase := c.memory.run.value.phase;
    var Reporting(version, snapshot) := phase.workers[i];
    assert WorkerOK(world, version, c.disk.work.value, phase.checkpoint.segments[i], phase.checkpoint.total,
                    phase.workers[i]);
    assert SegmentSound(c.disk.work.value, world(version), phase.checkpoint.segments[i]);
    WorkerMoveKeeps(world, validator, c, i, Receiving(version, 0));
    DeliverCheckpointKeeps(world, validator, WithWorker(c, i, Receiving(version, 0)), snapshot);
  }

  lemma SegmentRespondKeeps(world: World, validator: Option<Version>, c: Cell, i: nat, response: Response)
    requires Inv(world, validator, c) && c.memory.Up? && c.memory.run.Some?
    requires HonestEvent(world, c, SegmentRespond(i, response))
    requires SegmentRespondStep(c, i, response).Some?
    ensures Inv(world, validator, SegmentRespondStep(c, i, response).value)
  {
    var checkpoint := c.memory.run.value.phase.checkpoint;
    assert SegmentSound(c.disk.work.value, world(validator.value), checkpoint.segments[i]);
    WorkerMoveKeeps(world, validator, c, i, SegmentRespondStep(c, i, response).value.memory.run.value.phase.workers[i]);
  }

  lemma SegmentStopKeeps(world: World, validator: Option<Version>, c: Cell, i: nat, ok: bool)
    requires Inv(world, validator, c) && c.memory.Up? && c.memory.run.Some? && HasWorker(c, i)
    ensures Inv(world, validator, WithWorker(c, i, Finished(ok)))
  {
    WorkerMoveKeeps(world, validator, c, i, Finished(ok));
  }

  lemma AnnounceKeeps(world: World, validator: Option<Version>, c: Cell)
    requires Inv(world, validator, c) && c.memory.Up? && c.memory.run.Some?
    requires SegmentAnnounceStep(c).Some?
    ensures Inv(world, validator, SegmentAnnounceStep(c).value)
  {
    var checkpoint := c.memory.run.value.phase.checkpoint;
    DeliverCheckpointKeeps(world, validator, c, checkpoint);
    var delivered := DeliverCheckpoint(c, checkpoint);
    assert WorkersOK(world, validator.value, delivered.disk.work.value, checkpoint, LaunchWorkers(checkpoint));
  }

  lemma SettleKeeps(world: World, validator: Option<Version>, c: Cell)
    requires Inv(world, validator, c) && c.memory.Up? && c.memory.run.Some?
    requires SegmentsSettleStep(c).Some?
    ensures Inv(world, validator, SegmentsSettleStep(c).value)
  {
    DeliverCheckpointKeeps(world, validator, c, c.memory.run.value.phase.checkpoint);
  }

  // ---------------------------------------------------------------------
  // Every step, every run

  predicate IsWorkerEvent(event: Event) {
    || event.SegmentRespond? || event.SegmentWrite? || event.SegmentCount? || event.SegmentDeliver?
    || event.SegmentEnd? || event.SegmentBreak?
  }

  lemma WorkerStepKeeps(world: World, validator: Option<Version>, c: Cell, event: Event)
    requires IsWorkerEvent(event) && HonestEvent(world, c, event)
    requires Inv(world, validator, c) && c.memory.Up? && c.memory.run.Some?
    requires RunNext(world, c, event).Some?
    ensures Inv(world, validator, RunNext(world, c, event).value)
  {
    hide Inv, SegmentRespondStep, SegmentWriteStep, SegmentCountStep, SegmentDeliverStep;
    match event {
      case SegmentRespond(i, response) => SegmentRespondKeeps(world, validator, c, i, response);
      case SegmentWrite(i, count) => WriteKeeps(world, validator, c, i, count);
      case SegmentCount(i, report) => CountKeeps(world, validator, c, i, report);
      case SegmentDeliver(i) => WorkerDeliverKeeps(world, validator, c, i);
      case SegmentEnd(i) =>
        var segment := c.memory.run.value.phase.checkpoint.segments[i];
        SegmentStopKeeps(world, validator, c, i, segment.completed == segment.Length());
      case SegmentBreak(i) => SegmentStopKeeps(world, validator, c, i, false);
    }
  }

  predicate IsBodyEvent(event: Event) {
    event.Respond? || event.Announce? || event.Receive? || event.Report? || event.EndOfBody? || event.BreakOff?
  }

  lemma BodyStepKeeps(world: World, validator: Option<Version>, c: Cell, event: Event)
    requires IsBodyEvent(event) && HonestEvent(world, c, event)
    requires Inv(world, validator, c) && c.memory.Up? && c.memory.run.Some?
    requires RunNext(world, c, event).Some?
    ensures Inv(world, validator, RunNext(world, c, event).value)
  {
    hide Inv, RespondStep, ReportStep, ReceiveStep, EndOfBodyStep, BreakOffStep;
    match event {
      case Respond(response) => RespondKeeps(world, validator, c, response);
      case Announce => ReportKeeps(world, validator, c, true);
      case Receive(count) => ReceiveKeeps(world, validator, c, count);
      case Report => ReportKeeps(world, validator, c, false);
      case EndOfBody => EndOfBodyKeeps(world, validator, c);
      case BreakOff(fault) => BreakOffKeeps(world, validator, c, fault);
    }
  }

  lemma RunStepKeeps(world: World, validator: Option<Version>, c: Cell, event: Event)
    requires Inv(world, validator, c) && c.memory.Up? && c.memory.run.Some? && HonestEvent(world, c, event)
    requires RunNext(world, c, event).Some?
    ensures Inv(world, validator, RunNext(world, c, event).value)
  {
    hide Inv, Begin, SegmentAnnounceStep, SegmentsSettleStep, SegmentsConcludeStep, LinkStep, UnlinkStep, ExitStep;
    if IsWorkerEvent(event) {
      WorkerStepKeeps(world, validator, c, event);
    } else if IsBodyEvent(event) {
      BodyStepKeeps(world, validator, c, event);
    } else {
      match event {
        case BeginTransfer(openOk) => BeginKeeps(world, validator, c, openOk);
        case SegmentAnnounce => AnnounceKeeps(world, validator, c);
        case SegmentsSettle => SettleKeeps(world, validator, c);
        case SegmentsConclude => ConcludeKeeps(world, validator, c);
        case LinkFile(ok) => LinkKeeps(world, validator, c, ok);
        case UnlinkWork(ok) => UnlinkKeeps(world, validator, c, ok);
        case ExitRun(maxRetries, retryAt) => ExitKeeps(world, validator, c, maxRetries, retryAt);
      }
    }
  }

  lemma ManagerStepKeeps(world: World, validator: Option<Version>, c: Cell, event: Event)
    requires Inv(world, validator, c) && c.memory.Up? && ManagerNext(c, event).Some?
    ensures Inv(world, validator, ManagerNext(c, event).value)
  {
    match event {
      case StartRun => StartKeeps(world, validator, c);
      case Pause => PauseKeeps(world, validator, c);
      case SignalRun => SignalKeeps(world, validator, c);
      case FinishPause(saved) => FinishPauseKeeps(world, validator, c, saved);
      case Resume(saved) => ResumeKeeps(world, validator, c, saved);
      case RetryNow(saved) => RetryNowKeeps(world, validator, c, saved);
      case RetryDue => RetryDueKeeps(world, validator, c);
      case Cancel(saved) => CancelKeeps(world, validator, c, saved);
      case FinishCancel => FinishCancelKeeps(world, validator, c);
      case Close(now) => CloseKeeps(world, validator, c, now);
      case FinishClose(saved) => FinishCloseKeeps(world, validator, c, saved);
      case Delete(deleteFile, removed) => DeleteKeeps(world, validator, c, deleteFile, removed);
      case Crash =>
      case CrashInExit => CrashInExitKeeps(world, validator, c);
    }
  }

  /** Every step keeps the invariant, whatever else is going on. */
  lemma StepKeeps(world: World, validator: Option<Version>, c: Cell, event: Event)
    requires Inv(world, validator, c) && HonestEvent(world, c, event) && Next(world, c, event).Some?
    ensures Inv(world, validator, Next(world, c, event).value)
  {
    hide Inv;
    if c.memory.Down? {
      RestoreKeeps(world, validator, c, event.now, event.saved);
    } else if IsManagerEvent(event) {
      ManagerStepKeeps(world, validator, c, event);
    } else {
      RunStepKeeps(world, validator, c, event);
    }
  }

  lemma CreationEstablishes(world: World, expectedSize: int, scheduledAt: Option<Time>, acceptRanges: bool,
                            validator: Option<Version>)
    requires SegmentSizeRight(world, expectedSize, acceptRanges, validator)
    ensures Inv(world, validator, Created(expectedSize, scheduledAt, acceptRanges, validator))
  {
  }

  lemma {:induction false} RunsKeep(world: World, validator: Option<Version>, from: Cell, events: seq<Event>, to: Cell)
    requires Inv(world, validator, from) && Leads(world, from, events, to)
    ensures Inv(world, validator, to)
    decreases |events|
  {
    hide Inv;
    if events != [] {
      StepKeeps(world, validator, from, events[0]);
      RunsKeep(world, validator, Next(world, from, events[0]).value, events[1..], to);
    }
  }
}
