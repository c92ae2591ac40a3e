/**
 Tasks, transfer requests, stored records and the two files of a task,
 with the record updates the scheduler and the transfer protocol share.
 */
module Tasks {
  import opened Basics
  import opened Checkpoints

  /** One version of the remote resource. A usable If-Range value (strong ETag, else Last-Modified) names a version. */
  type Version = nat

  /** The bytes of every version: what it means for the validators to be strong. */
  type World = Version -> Bytes

  datatype TaskState = Queued | Downloading | Retrying | Paused | Completed | Failed | Canceled

  datatype TaskError = TaskError(code: string, retryable: bool)

  /** `total` is -1 while the size is unknown. */
  datatype Task = Task(
    state: TaskState,
    scheduledAt: Option<Time>,
    downloaded: int,
    total: int,
    retryCount: nat,
    nextRetryAt: Option<Time>,
    error: Option<TaskError>
  )

  /** `validator` is the version the If-Range value names, None when there is no usable value. */
  datatype Request = Request(
    validator: Option<Version>,
    offset: int,
    expectedSize: int,
    acceptRanges: bool,
    allowSegments: bool,
    checkpoint: Option<TransferCheckpoint>
  )

  datatype StoredTask = StoredTask(
    task: Task,
    acceptRanges: bool,
    validator: Option<Version>,
    checkpoint: Option<TransferCheckpoint>
  )

  /** The work file and the destination; `linked` when both names denote one file. */
  datatype Disk = Disk(work: Option<Bytes>, dest: Option<Bytes>, linked: bool) {
    function RemoveWork(): Disk {
      Disk(None, dest, false)
    }

    /** Writes through the work name, which is also a write to the destination while they are linked. */
    function WriteWork(bytes: Bytes): Disk {
      Disk(Some(bytes), if linked then Some(bytes) else dest, linked)
    }

    function Link(): Disk
      requires work.Some?
    {
      Disk(work, work, true)
    }
  }

  predicate IsTerminalState(state: TaskState) {
    state == Completed || state == Failed || state == Canceled
  }

  predicate IsActiveState(state: TaskState) {
    state == Downloading || state == Queued || state == Retrying
  }

  /** A task whose planned start lies after `now`. */
  predicate InFuture(task: Task, now: Time) {
    task.scheduledAt.Some? && now < task.scheduledAt.value
  }

  function NewTask(expectedSize: int, scheduledAt: Option<Time>): Task {
    Task(Queued, scheduledAt, 0, if expectedSize <= 0 then -1 else expectedSize, 0, None, None)
  }

  function NewRequest(task: Task, acceptRanges: bool, validator: Option<Version>): Request {
    Request(
      validator, 0, task.total, acceptRanges,
      acceptRanges && validator.Some? && DEFAULT_SEGMENTED_TRANSFER_MIN_SIZE <= task.total,
      None)
  }

  function Stored(task: Task, request: Request): StoredTask {
    StoredTask(task, request.acceptRanges, request.validator, request.checkpoint)
  }

  function Started(task: Task): Task {
    task.(state := Downloading, error := None, nextRetryAt := None)
  }

  function PausedTask(task: Task): Task {
    task.(state := Paused, nextRetryAt := None)
  }

  function CanceledTask(task: Task): Task {
    task.(state := Canceled, nextRetryAt := None)
  }

  /** Back in the queue on the user's request: a fresh retry budget, no plan. */
  function RequeuedByUser(task: Task, downloaded: int): Task {
    task.(state := Queued, downloaded := downloaded, error := None, retryCount := 0,
          nextRetryAt := None, scheduledAt := None)
  }

  function RequeuedAfterDelay(task: Task): Task {
    task.(state := Queued, nextRetryAt := None)
  }

  function RetryingTask(task: Task, downloaded: int, retryAt: Time): Task {
    task.(state := Retrying, downloaded := downloaded, retryCount := task.retryCount + 1,
          nextRetryAt := Some(retryAt), error := Some(TransferError(true)))
  }

  function CompletedTask(task: Task, size: int): Task {
    task.(state := Completed, downloaded := size, total := size, error := None, nextRetryAt := None)
  }

  function FailedTask(task: Task, retryable: bool): Task {
    task.(state := Failed, error := Some(TransferError(retryable)), nextRetryAt := None)
  }

  function TransferError(retryable: bool): TaskError {
    TaskError(if retryable then "download_failed" else "transfer_rejected", retryable)
  }

  /** How many bytes of the work file the task may claim after an interruption; None when the file no longer fits. */
  function PartialProgress(task: Task, request: Request, disk: Disk): Option<int> {
    match request.checkpoint
    case None =>
      if request.allowSegments then
        if disk.work.None? then Some(0) else None
      else
        var size := WorkSize(disk);
        if 0 < task.total < size then None else Some(size)
    case Some(checkpoint) =>
      if ValidCheckpoint(checkpoint, task.total) && disk.work.Some? && |disk.work.value| == checkpoint.total
      then Some(Downloaded(checkpoint))
      else None
  }

  function WorkSize(disk: Disk): nat {
    if disk.work.Some? then |disk.work.value| else 0
  }

  /**
   Whether a progress report is taken: from a downloading task, or from a paused one if it carries a
   checkpoint; a checkpoint must be valid for the reported size and add up to the reported progress.
   */
  predicate AcceptsReport(task: Task, downloaded: int, total: int, checkpoint: Option<TransferCheckpoint>) {
    && (task.state == Downloading || (task.state == Paused && checkpoint.Some?))
    && (checkpoint.Some? ==> ValidCheckpoint(checkpoint.value, total) && Downloaded(checkpoint.value) == downloaded)
  }

  function ReportedTask(task: Task, downloaded: int, total: int): Task {
    task.(downloaded := downloaded, total := total)
  }

  function ReportedRequest(request: Request, total: int, checkpoint: Option<TransferCheckpoint>): Request {
    if checkpoint.None? then request
    else request.(checkpoint := checkpoint, expectedSize := total, acceptRanges := true, allowSegments := true)
  }

  /** The request a paused task resumes with; None when its files or its request do not allow it. */
  function PrepareResume(task: Task, request: Request, disk: Disk): Option<Request> {
    if disk.dest.Some? || PartialProgress(task, request, disk) != Some(task.downloaded) then None
    else if 0 < task.downloaded && request.validator.None? then None
    else Some(request.(offset := task.downloaded, expectedSize := task.total))
  }

  /** The request and files an automatic retry continues from. */
  function PrepareAutomaticRetry(request: Request, disk: Disk): (Request, Disk) {
    if request.checkpoint.Some? then
      (request.(checkpoint := None, offset := 0), disk.RemoveWork())
    else if 0 < WorkSize(disk) && request.validator.None? then
      (request.(offset := 0), disk.RemoveWork())
    else
      (request.(offset := WorkSize(disk)), disk)
  }

  /** The request, bytes kept and files a manual retry continues from; None when the partial file is too long. */
  function PrepareManualRetry(request: Request, total: int, disk: Disk): Option<(Request, int, Disk)> {
    if request.checkpoint.Some? || request.allowSegments then
      Some((request.(checkpoint := None), 0, disk.RemoveWork()))
    else if 0 < total < WorkSize(disk) then
      None
    else if 0 < WorkSize(disk) && request.validator.None? then
      Some((request.(checkpoint := None), 0, disk.RemoveWork()))
    else
      Some((request.(checkpoint := None), WorkSize(disk), disk))
  }

  // ---------------------------------------------------------------------
  // Backoff

  const RETRY_MAX_DELAY: Time := 30_000_000_000

  type Delay = delay: Time | 0 < delay witness 1

  function Pow2(n: nat): nat {
    if n == 0 then 1 else 2 * Pow2(n - 1)
  }

  function RetryDelay(base: Delay, count: nat): Time {
    if RETRY_MAX_DELAY < base then base else Min(base * Pow2(count), RETRY_MAX_DELAY)
  }

  lemma {:induction false} Pow2Grows(m: nat, n: nat)
    requires m <= n
    ensures 1 <= Pow2(m) <= Pow2(n)
    decreases n
  {
    if n == 0 {
    } else if m == n {
      Pow2Grows(m - 1, n - 1);
    } else {
      Pow2Grows(m, n - 1);
    }
  }

  /** The delay begins at the base and doubles with every retry, up to 30 seconds; a longer base is used as it is. */
  lemma RetryDelaysDouble(base: Delay, count: nat)
    ensures RetryDelay(base, 0) == base
    ensures RetryDelay(base, count + 1)
            == if 30_000_000_000 < base then base else Min(2 * RetryDelay(base, count), 30_000_000_000)
    ensures base <= RetryDelay(base, count) <= Max(base, 30_000_000_000)
  {
    Pow2Grows(0, count);
    Scales(base, 1, Pow2(count));
    assert base * Pow2(count + 1) == 2 * (base * Pow2(count));
    assert base * Pow2(0) == base;
  }

  /** The doubling loop computes the capped power, even though it stops early. */
  method ComputeRetryDelay(base: Delay, retryCount: nat) returns (delay: Time)
    ensures delay == RetryDelay(base, retryCount)
  {
    delay := base;
    var retry := 0;
    assert base * Pow2(0) == base;
    while retry < retryCount && delay < RETRY_MAX_DELAY
      invariant 0 <= retry <= retryCount
      invariant base <= RETRY_MAX_DELAY ==> delay == Min(base * Pow2(retry), RETRY_MAX_DELAY)
      invariant RETRY_MAX_DELAY < base ==> delay == base
    {
      delay := delay * 2;
      if delay > RETRY_MAX_DELAY {
        delay := RETRY_MAX_DELAY;
      }
      retry := retry + 1;
      assert base * Pow2(retry) == 2 * (base * Pow2(retry - 1));
    }
    if base <= RETRY_MAX_DELAY && retry < retryCount {
      Pow2Grows(retry, retryCount);
      Scales(base, Pow2(retry), Pow2(retryCount));
    }
  }

  lemma Scales(a: int, b: int, c: int)
    requires 0 <= a && b <= c
    ensures a * b <= a * c
  {
  }
}
