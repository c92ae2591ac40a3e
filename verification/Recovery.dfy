/**
 What the engine makes of a stored task when it starts: nothing is running
 any more, and the files on disk decide what may be kept.
 */
module Recovery {
  import opened Basics
  import opened Checkpoints
  import opened Tasks

  datatype Recovered = Recovered(task: Task, request: Request, disk: Disk)

  /** The numbers a stored task must have; anything else stops the engine from starting. */
  predicate ReadableTask(task: Task) {
    0 <= task.downloaded && -1 <= task.total
  }

  function RestoredRequest(record: StoredTask): Request {
    Request(
      record.validator, 0, record.task.total, record.acceptRanges,
      (record.acceptRanges && DEFAULT_SEGMENTED_TRANSFER_MIN_SIZE <= record.task.total) || record.checkpoint.Some?,
      record.checkpoint)
  }

  predicate CompletedFileMatches(total: int, disk: Disk)
    requires disk.dest.Some?
  {
    if 0 < total then |disk.dest.value| == total else disk.work.Some? && disk.linked
  }

  function RecoveryFailure(task: Task, code: string): Task {
    task.(state := Failed, error := Some(TaskError(code, false)))
  }

  /** An interrupted task: published, lost, resumable, or to be started over. */
  function InterruptedOutcome(task: Task, request: Request, disk: Disk): Recovered {
    var paused := PausedTask(task);
    var dropped := request.(checkpoint := None);
    if disk.dest.Some? then
      Recovered(
        if CompletedFileMatches(task.total, disk)
        then CompletedTask(paused, |disk.dest.value|)
        else RecoveryFailure(paused, "destination_exists"),
        dropped, disk.RemoveWork())
    else if disk.work.None? then
      if 0 < task.downloaded || request.checkpoint.Some?
      then Recovered(RecoveryFailure(paused, "partial_file_changed"), dropped, disk)
      else Recovered(paused.(downloaded := 0, error := None), request, disk)
    else if request.checkpoint.Some? then
      var checkpoint := request.checkpoint.value;
      if ValidCheckpoint(checkpoint, task.total) && |disk.work.value| == checkpoint.total
      then Recovered(paused.(downloaded := Downloaded(checkpoint), total := checkpoint.total, error := None), request,
                     disk)
      else Recovered(RecoveryFailure(paused, "partial_file_changed"), dropped, disk)
    else if request.allowSegments then
      if task.downloaded == 0
      then Recovered(paused.(error := None), request.(allowSegments := request.validator.Some?), disk.RemoveWork())
      else Recovered(RecoveryFailure(paused, "partial_file_changed"), request, disk.RemoveWork())
    else if 0 < task.total < |disk.work.value| then
      Recovered(RecoveryFailure(paused, "partial_file_changed"), request, disk)
    else
      Recovered(paused.(downloaded := |disk.work.value|, error := None), request, disk)
  }

  /** A queued task that never started and whose plan still lies ahead. */
  predicate StillScheduled(task: Task, request: Request, now: Time) {
    InFuture(task, now) && task.downloaded == 0 && request.checkpoint.None?
  }

  function Reconcile(record: StoredTask, disk: Disk, now: Time): Option<Recovered> {
    if !ReadableTask(record.task) then None
    else
      var request := RestoredRequest(record);
      var outcome :=
        match record.task.state
        case Downloading | Retrying | Paused => InterruptedOutcome(record.task, request, disk)
        case Queued =>
          if StillScheduled(record.task, request, now) && disk.dest.Some? then
            Recovered(RecoveryFailure(record.task, "destination_exists"), request, disk)
          else if StillScheduled(record.task, request, now) && disk.work.None? then
            Recovered(record.task.(nextRetryAt := None, error := None), request, disk)
          else
            InterruptedOutcome(record.task, request, disk)
        case Completed | Failed | Canceled =>
          Recovered(record.task.(nextRetryAt := None), request.(checkpoint := None), disk.RemoveWork());
      Some(outcome.(request := outcome.request.(allowSegments :=
        outcome.request.allowSegments
        && (outcome.request.checkpoint.Some? || outcome.request.validator.Some?))))
  }

  /** The task, request and files recovery works on, updated in place. */
  class Reconciler {
    var task: Task
    var request: Request
    var disk: Disk

    constructor (record: StoredTask, disk: Disk)
      ensures task == record.task && request == RestoredRequest(record) && this.disk == disk
    {
      task := record.task;
      request := RestoredRequest(record);
      this.disk := disk;
    }

    function View(): Recovered
      reads this
    {
      Recovered(task, request, disk)
    }

    method MarkFailed(code: string)
      modifies this`task
      ensures task == RecoveryFailure(old(task), code)
    {
      task := task.(state := Failed, error := Some(TaskError(code, false)));
    }

    method ReconcileInterruptedTask()
      modifies this
      ensures View() == InterruptedOutcome(old(task), old(request), old(disk))
    {
      task := task.(state := Paused, nextRetryAt := None);
      if disk.dest.Some? {
        if CompletedFileMatches(task.total, disk) {
          var size := |disk.dest.value|;
          task := task.(state := Completed, downloaded := size, total := size, error := None);
        } else {
          MarkFailed("destination_exists");
        }
        request := request.(checkpoint := None);
        disk := disk.RemoveWork();
        return;
      }
      if disk.work.None? {
        if task.downloaded > 0 || request.checkpoint.Some? {
          MarkFailed("partial_file_changed");
          request := request.(checkpoint := None);
        } else {
          task := task.(downloaded := 0, error := None);
        }
        return;
      }
      if request.checkpoint.Some? {
        var checkpoint := request.checkpoint.value;
        if !ValidCheckpoint(checkpoint, task.total) || |disk.work.value| != checkpoint.total {
          MarkFailed("partial_file_changed");
          request := request.(checkpoint := None);
          return;
        }
        task := task.(downloaded := Downloaded(checkpoint), total := checkpoint.total, error := None);
        return;
      }
      if request.allowSegments {
        if task.downloaded == 0 {
          disk := disk.RemoveWork();
          if request.validator.None? {
            request := request.(allowSegments := false);
          }
          task := task.(error := None);
          return;
        }
        MarkFailed("partial_file_changed");
        disk := disk.RemoveWork();
        return;
      }
      if task.total > 0 && |disk.work.value| > task.total {
        MarkFailed("partial_file_changed");
        return;
      }
      task := task.(downloaded := |disk.work.value|, error := None);
    }

    /** True when the task keeps its plan or its plan is settled as failed; false hands it to the interrupted case. */
    method ReconcileScheduledTask(now: Time) returns (settled: bool)
      modifies this`task
      ensures settled == (StillScheduled(old(task), request, now) && (disk.dest.Some? || disk.work.None?))
      ensures !settled ==> task == old(task)
      ensures settled ==>
                task == if disk.dest.Some? then RecoveryFailure(old(task), "destination_exists")
                        else old(task).(nextRetryAt := None, error := None)
    {
      if task.scheduledAt.None? || task.scheduledAt.value <= now || task.downloaded != 0 || request.checkpoint.Some? {
        return false;
      }
      if disk.dest.Some? {
        MarkFailed("destination_exists");
        return true;
      }
      if disk.work.Some? {
        return false;
      }
      task := task.(nextRetryAt := None, error := None);
      return true;
    }
  }

  method ReconcileStoredTask(record: StoredTask, disk: Disk, now: Time) returns (recovered: Option<Recovered>)
    ensures recovered == Reconcile(record, disk, now)
  {
    if record.task.downloaded < 0 || record.task.total < -1 {
      return None;
    }
    var reconciler := new Reconciler(record, disk);
    if record.task.state == Downloading || record.task.state == Retrying || record.task.state == Paused {
      reconciler.ReconcileInterruptedTask();
    } else if record.task.state == Queued {
      var settled := reconciler.ReconcileScheduledTask(now);
      if !settled {
        reconciler.ReconcileInterruptedTask();
      }
    } else {
      reconciler.task := reconciler.task.(nextRetryAt := None);
      reconciler.request := reconciler.request.(checkpoint := None);
      reconciler.disk := reconciler.disk.RemoveWork();
    }
    if reconciler.request.checkpoint.None? && reconciler.request.validator.None? {
      reconciler.request := reconciler.request.(allowSegments := false);
    }
    recovered := Some(reconciler.View());
  }

  // ---------------------------------------------------------------------
  // Properties

  /** What a second recovery must find unchanged. */
  predicate SameOutcome(a: Recovered, b: Recovered) {
    && a.task.state == b.task.state
    && a.task.downloaded == b.task.downloaded
    && a.task.total == b.task.total
    && a.task.error == b.task.error
    && a.request.checkpoint == b.request.checkpoint
  }

  /** A paused record whose claim is backed by the files is left as it is. */
  predicate Settled(task: Task, request: Request, disk: Disk) {
    && ReadableTask(task)
    && (IsTerminalState(task.state) ==> request.checkpoint.None?)
    && (task.state == Paused ==>
          && disk.dest.None? && task.error.None?
          && match request.checkpoint
             case Some(checkpoint) =>
               && ValidCheckpoint(checkpoint, task.total) && checkpoint.total == task.total
               && disk.work.Some? && |disk.work.value| == checkpoint.total
               && task.downloaded == Downloaded(checkpoint)
             case None =>
               && task.downloaded == WorkSize(disk)
               && (disk.work.Some? ==>
                     && !(request.acceptRanges && DEFAULT_SEGMENTED_TRANSFER_MIN_SIZE <= task.total)
                     && !(0 < task.total < |disk.work.value|)))
    && (task.state == Queued ==>
          disk.dest.None? && disk.work.None? && task.error.None? && request.checkpoint.None? && task.downloaded == 0)
  }

  lemma InterruptedSettles(record: StoredTask, disk: Disk)
    requires ReadableTask(record.task)
    ensures var after := InterruptedOutcome(record.task, RestoredRequest(record), disk);
            && Settled(after.task, after.request, after.disk)
            && IsTerminalState(after.task.state) != (after.task.state == Paused)
            && after.request.acceptRanges == record.acceptRanges && after.request.validator == record.validator
  {
    if record.checkpoint.Some? && ValidCheckpoint(record.checkpoint.value, record.task.total) {
      DownloadedBounds(record.checkpoint.value, record.task.total);
    }
  }

  lemma RecoverySettles(record: StoredTask, disk: Disk, now: Time)
    requires Reconcile(record, disk, now).Some?
    ensures var after := Reconcile(record, disk, now).value;
            && Settled(after.task, after.request, after.disk)
            && (IsTerminalState(after.task.state) || after.task.state == Paused || after.task.state == Queued)
            && (after.task.state == Queued ==> InFuture(after.task, now))
  {
    InterruptedSettles(record, disk);
  }

  lemma SettledStays(task: Task, request: Request, disk: Disk, now: Time)
    requires Settled(task, request, disk)
    requires IsTerminalState(task.state) || task.state == Paused || (task.state == Queued && InFuture(task, now))
    ensures var second := Reconcile(Stored(task, request), disk, now);
            second.Some? && SameOutcome(Recovered(task, request, disk), second.value)
  {
    if task.state == Paused {
      assert Reconcile(Stored(task, request), disk, now).value.task
          == InterruptedOutcome(task, RestoredRequest(Stored(task, request)), disk).task;
    }
  }

  /** Recovering what was just recovered changes nothing, for every readable record and any files. */
  lemma RecoveryIsIdempotent(record: StoredTask, disk: Disk, now: Time)
    requires Reconcile(record, disk, now).Some?
    ensures var first := Reconcile(record, disk, now).value;
            var second := Reconcile(Stored(first.task, first.request), first.disk, now);
            second.Some? && SameOutcome(first, second.value)
  {
    var first := Reconcile(record, disk, now).value;
    RecoverySettles(record, disk, now);
    SettledStays(first.task, first.request, first.disk, now);
  }

  /** Nothing runs or waits for a retry after recovery; only an untouched plan in the future is still queued. */
  lemma RecoveryStopsEverything(record: StoredTask, disk: Disk, now: Time)
    requires Reconcile(record, disk, now).Some?
    ensures var after := Reconcile(record, disk, now).value;
            && after.task.state != Downloading && after.task.state != Retrying
            && (after.task.state == Queued <==>
                  record.task.state == Queued && InFuture(record.task, now) && record.task.downloaded == 0
                  && record.checkpoint.None? && disk.dest.None? && disk.work.None?)
  {
  }

  /** Recovery never touches the destination, and writes nothing to the work file. */
  lemma RecoveryOnlyRemovesWork(record: StoredTask, disk: Disk, now: Time)
    requires Reconcile(record, disk, now).Some?
    ensures var after := Reconcile(record, disk, now).value;
            && after.disk.dest == disk.dest
            && (after.disk == disk || after.disk == disk.RemoveWork())
            && (disk.dest.Some? && IsActiveState(record.task.state) && record.task.state != Queued ==>
                  after.disk.work.None?)
  {
  }

  /** What the outcome claims is backed, with or without segments allowed for a request that kept no file. */
  ghost predicate Backed(after: Recovered) {
    && (after.task.state == Completed ==>
          after.disk.dest.Some? && after.task.downloaded == after.task.total == |after.disk.dest.value|)
    && (after.task.state == Paused ==>
          && after.disk.dest.None?
          && PartialProgress(after.task, after.request, after.disk) == Some(after.task.downloaded))
  }

  lemma InterruptedIsBacked(task: Task, request: Request, disk: Disk)
    requires ReadableTask(task)
    ensures Backed(InterruptedOutcome(task, request, disk))
  {
  }

  /**
   Forbidding segments to a request without a checkpoint, as recovery does for want of a validator, keeps the claim
   backed.
   */
  lemma ForbiddingSegmentsIsBacked(after: Recovered)
    requires Backed(after) && after.request.checkpoint.None? && after.request.allowSegments
    ensures Backed(after.(request := after.request.(allowSegments := false)))
  {
  }

  /** A claim to `downloaded` bytes after recovery is backed by the work file, or by the destination. */
  lemma RecoveredProgressIsBacked(record: StoredTask, disk: Disk, now: Time)
    requires Reconcile(record, disk, now).Some? && !IsTerminalState(record.task.state)
    ensures Backed(Reconcile(record, disk, now).value)
  {
    hide Backed, InterruptedOutcome;
    var outcome := InterruptedOutcome(record.task, RestoredRequest(record), disk);
    InterruptedIsBacked(record.task, RestoredRequest(record), disk);
    if outcome.request.checkpoint.None? && outcome.request.allowSegments {
      ForbiddingSegmentsIsBacked(outcome);
    }
    if record.task.state == Queued && StillScheduled(record.task, RestoredRequest(record), now)
      && (disk.dest.Some? || disk.work.None?) {
      ScheduledIsBacked(record, disk, now);
    }
  }

  lemma ScheduledIsBacked(record: StoredTask, disk: Disk, now: Time)
    requires Reconcile(record, disk, now).Some? && record.task.state == Queued
    requires StillScheduled(record.task, RestoredRequest(record), now) && (disk.dest.Some? || disk.work.None?)
    ensures Backed(Reconcile(record, disk, now).value)
  {
  }

  // ---------------------------------------------------------------------
  // What survives

  /** The task was active or paused when the engine stopped; a plan nothing was done for is not. */
  predicate IsInterrupted(record: StoredTask, disk: Disk, now: Time) {
    || record.task.state == Downloading || record.task.state == Retrying || record.task.state == Paused
    || (record.task.state == Queued
        && !(InFuture(record.task, now) && record.task.downloaded == 0 && record.checkpoint.None?
             && (disk.dest.Some? || disk.work.None?)))
  }

  /** The record is read as that of a task that uses segments. */
  predicate ReadAsSegmented(record: StoredTask) {
    record.checkpoint.Some? || (record.acceptRanges && DEFAULT_SEGMENTED_TRANSFER_MIN_SIZE <= record.task.total)
  }

  /** The task can be resumed with this progress and these files, and nothing else about it has changed. */
  predicate PausedWith(after: Recovered, record: StoredTask, downloaded: int, disk: Disk) {
    && after.task == record.task.(state := Paused, downloaded := downloaded, error := None, nextRetryAt := None)
    && after.request.checkpoint == record.checkpoint && after.request.validator == record.validator
    && after.disk == disk
  }

  /** The task has failed for good. */
  predicate LostWith(after: Recovered, code: string) {
    after.task.state == Failed && after.task.error == Some(TaskError(code, false)) && after.task.nextRetryAt.None?
  }

  /**
   A single connection keeps every byte of its work file, however few the last stored report counted, unless the
   file is larger than the known size; a segmented transfer keeps what its checkpoint counts if the file has its size.
   */
  lemma PartialFilesSurvive(record: StoredTask, disk: Disk, now: Time)
    requires ReadableTask(record.task) && IsInterrupted(record, disk, now) && disk.dest.None? && disk.work.Some?
    ensures Reconcile(record, disk, now).Some?
    ensures var after := Reconcile(record, disk, now).value;
            var size := |disk.work.value|;
            && (!ReadAsSegmented(record) ==>
                  if 0 < record.task.total < size then LostWith(after, "partial_file_changed") && after.disk == disk
                  else PausedWith(after, record, size, disk))
            && (record.checkpoint.Some? ==>
                  var checkpoint := record.checkpoint.value;
                  if ValidCheckpoint(checkpoint, record.task.total) && size == checkpoint.total
                  then PausedWith(after, record.(task := record.task.(total := checkpoint.total)),
                                  Downloaded(checkpoint), disk)
                  else LostWith(after, "partial_file_changed") && after.disk == disk)
            && (ReadAsSegmented(record) && record.checkpoint.None? ==>
                  && after.disk.work.None?
                  && if record.task.downloaded == 0 then PausedWith(after, record, 0, disk.RemoveWork())
                     else LostWith(after, "partial_file_changed"))
  {
    hide ValidCheckpoint, Downloaded;
  }

  /** Without a work file only a task that had nothing starts over. */
  lemma MissingFilesAreNoticed(record: StoredTask, disk: Disk, now: Time)
    requires ReadableTask(record.task) && IsInterrupted(record, disk, now) && disk.dest.None? && disk.work.None?
    ensures Reconcile(record, disk, now).Some?
    ensures var after := Reconcile(record, disk, now).value;
            && after.disk == disk
            && if record.task.downloaded == 0 && record.checkpoint.None? then PausedWith(after, record, 0, disk)
               else LostWith(after, "partial_file_changed")
  {
  }

  /** A destination is the finished file if it has the known size, or is the work file under its second name. */
  lemma FinishedFilesAreRecognised(record: StoredTask, disk: Disk, now: Time)
    requires ReadableTask(record.task) && IsInterrupted(record, disk, now) && disk.dest.Some?
    ensures Reconcile(record, disk, now).Some?
    ensures var after := Reconcile(record, disk, now).value;
            var size := |disk.dest.value|;
            && after.disk == Disk(None, disk.dest, false) && after.request.checkpoint.None?
            && if if 0 < record.task.total then record.task.total == size else disk.work.Some? && disk.linked
               then after.task.state == Completed && after.task.downloaded == after.task.total == size
                    && after.task.error.None?
               else LostWith(after, "destination_exists")
  {
  }

  /** What was over stays over, with its numbers and its error; only its work file goes. */
  lemma WhatIsOverStaysOver(record: StoredTask, disk: Disk, now: Time)
    requires ReadableTask(record.task) && IsTerminalState(record.task.state)
    ensures Reconcile(record, disk, now).Some?
    ensures var after := Reconcile(record, disk, now).value;
            && after.task == record.task.(nextRetryAt := None)
            && after.disk == Disk(None, disk.dest, false) && after.request.checkpoint.None?
  {
  }

  /** The request is rebuilt from the record: segments only with a validator or a checkpoint, and nothing sent yet. */
  lemma RequestsAreRebuilt(record: StoredTask, disk: Disk, now: Time)
    requires ReadableTask(record.task)
    ensures Reconcile(record, disk, now).Some?
    ensures var request := Reconcile(record, disk, now).value.request;
            && request.validator == record.validator && request.acceptRanges == record.acceptRanges
            && request.expectedSize == record.task.total && request.offset == 0
            && (request.checkpoint.None? || request.checkpoint == record.checkpoint)
            && (request.allowSegments
                <==> request.checkpoint.Some?
                     || (record.validator.Some? && ReadAsSegmented(record)))
  {
    hide ValidCheckpoint, Downloaded;
  }

  /** A plan in the future stays queued if nothing was done for it yet, and fails if its file exists by now. */
  lemma PlansSurvive(record: StoredTask, disk: Disk, now: Time)
    requires ReadableTask(record.task) && record.task.state == Queued && InFuture(record.task, now)
    requires record.task.downloaded == 0 && record.checkpoint.None? && disk.work.None?
    ensures Reconcile(record, disk, now).Some?
    ensures var after := Reconcile(record, disk, now).value;
            && after.disk == disk
            && if disk.dest.None? then after.task == record.task.(error := None, nextRetryAt := None)
               else after.task.state == Failed && after.task.error == Some(TaskError("destination_exists", false))
  {
  }
}
