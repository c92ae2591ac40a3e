/**
 One HTTP download as a protocol: its two files, its stored record, the
 manager's copy of it, and the transfer goroutine with its segment workers.

 Every step is one locked section of the manager, one system call on a file,
 or one event of the network. Steps interleave freely, the engine may crash
 between any two of them, and each response may come from any version of the
 remote resource.
 */
module TransferProtocol {
  import opened Basics
  import opened Checkpoints
  import opened Tasks
  import opened Recovery

  // ---------------------------------------------------------------------
  // The remote side

  /** A Content-Range header; `total` is -1 for `*`. */
  datatype ContentRange = ContentRange(start: int, end: int, total: int) {
    function Length(): int {
      end - start + 1
    }
  }

  /**
   A response to a GET. `length` is the Content-Length or -1, `observed` the version its own
   validator header names, and `framed` whether the end of its body is marked, so that a cut
   connection is an error and not an end.
   */
  datatype Response = Response(
    status: int,
    version: Version,
    length: int,
    observed: Option<Version>,
    range: Option<ContentRange>,
    identity: bool,
    framed: bool
  )

  const PARTIAL_CONTENT := 206
  const PRECONDITION_FAILED := 412

  predicate IsTemporaryStatus(status: int) {
    status == 408 || status == 429 || 500 <= status
  }

  predicate IsSuccess(status: int) {
    200 <= status < 300
  }

  /** A byte range as section 14.1.2 of RFC 9110 writes it: `first-last`, `first-`, or `-length`. */
  datatype ByteRange = FirstLast(first: nat, last: nat) | First(first: nat) | Suffix(length: nat) {
    /** An answer may hold any part of what is asked of a representation of this size. */
    predicate Allows(size: nat, start: int, end: int) {
      && 0 <= start <= end < size
      && match this
         case FirstLast(first, last) => first <= start && end <= last
         case First(first) => first <= start
         case Suffix(length) => size - length <= start
    }
  }

  /**
   Sections 8.8, 13.1, 14.2 and 15.3.7 of RFC 9110, as far as the engine relies on them. `ranged` tells
   whether the engine asks for a range of its own; otherwise a Range among the task's own headers is sent,
   which the server may answer with a part.
   */
  ghost predicate Honest(world: World, own: Option<ByteRange>, response: Response, validator: Option<Version>,
                         ranged: bool) {
    && -1 <= response.length
    && (0 <= response.length ==> response.framed)
    && (response.observed.Some? ==> response.observed.value == response.version)
       // A condition is honoured, or the response at least carries its own validator.
    && ((if ranged then response.status == PARTIAL_CONTENT else IsSuccess(response.status)) && validator.Some? ==>
          response.version == validator.value || response.observed.Some?)
    && (!ranged && IsSuccess(response.status) && response.status != PARTIAL_CONTENT && 0 <= response.length ==>
          response.length == |world(response.version)|)
    && (response.status == PARTIAL_CONTENT && response.range.Some? ==>
          && 0 <= response.range.value.start
          && response.range.value.end < |world(response.version)|
          && (response.range.value.total == -1 || response.range.value.total == |world(response.version)|))
    && (!ranged && response.status == PARTIAL_CONTENT ==>
          && own.Some? && response.range.Some?
          && own.value.Allows(|world(response.version)|, response.range.value.start, response.range.value.end)
          && (0 <= response.length ==> response.length == response.range.value.Length()))
  }

  /** The total and length a Content-Range promises for a resume at `offset`. */
  function ParseResumeContentRange(range: Option<ContentRange>, offset: int): Option<(int, int)> {
    if range.None? || range.value.start != offset || range.value.end < range.value.start then None
    else if range.value.total != -1 && range.value.total <= range.value.end then None
    else Some((range.value.total, range.value.end - range.value.start + 1))
  }

  predicate ResourceValidatorChanged(validator: Option<Version>, response: Response) {
    validator.Some? && response.observed.Some? && response.observed.value != validator.value
  }

  // ---------------------------------------------------------------------
  // The local side

  datatype Cause = NoCause | PauseCause | CancelCause | ShutdownCause

  datatype Fault = Interrupted | Transient | Permanent

  datatype Outcome = Success(size: int) | Failure(fault: Fault)

  /** Which version was published, and whether some stated length vouched for all of it. */
  datatype Proof = Proof(version: Version, whole: bool)

  /**
   An accepted single-connection response: its body ends at `limit` in the work file, whose byte `p` is
   byte `p + shift` of the version.
   */
  datatype Reply = Reply(version: Version, shift: int, limit: int, total: int, framed: bool)

  /** A segment worker; `ahead` bytes are written but not counted yet. */
  datatype Worker =
    | Asking
    | Receiving(version: Version, ahead: nat)
    | Reporting(version: Version, snapshot: TransferCheckpoint)
    | Finished(ok: bool)

  datatype Phase =
    | Starting
    | Requested
    | Body(reply: Reply, downloaded: int, announced: bool)
    | Segments(checkpoint: TransferCheckpoint, workers: seq<Worker>, announced: bool)
    | Settled(checkpoint: TransferCheckpoint, clean: bool)
    | Sealed(size: int, proof: Proof)
    | Linked(size: int)
    | Returned(outcome: Outcome)

  datatype Run = Run(input: Request, cause: Cause, phase: Phase)

  /** The operation that holds the operation lock and waits for the run to end. */
  datatype Operation = Idle | Pausing | Canceling | Closing

  datatype Memory = Down | Up(task: Task, request: Request, run: Option<Run>, operation: Operation)

  datatype Cell = Cell(disk: Disk, store: Option<StoredTask>, memory: Memory, published: Option<Proof>)

  datatype Event =
    | StartRun
    | BeginTransfer(openOk: bool)
    | Respond(response: Response)
    | Announce
    | Receive(count: nat)
    | Report
    | EndOfBody
    | BreakOff(fault: Fault)
    | SegmentAnnounce
    | SegmentRespond(worker: nat, response: Response)
    | SegmentWrite(worker: nat, count: nat)
    | SegmentCount(worker: nat, report: bool)
    | SegmentDeliver(worker: nat)
    | SegmentEnd(worker: nat)
    | SegmentBreak(worker: nat)
    | SegmentsSettle
    | SegmentsConclude
    | LinkFile(ok: bool)
    | UnlinkWork(ok: bool)
    | ExitRun(maxRetries: nat, retryAt: Time)
    | Pause
    | SignalRun
    | FinishPause(saved: bool)
    | Resume(saved: bool)
    | RetryNow(saved: bool)
    | RetryDue
    | Cancel(saved: bool)
    | FinishCancel
    | Close(now: Time)
    | FinishClose(saved: bool)
    | Delete(deleteFile: bool, removed: bool)
    | Crash
    | CrashInExit
    | Restore(now: Time, saved: bool)

  predicate Segmented(input: Request) {
    input.checkpoint.Some? || (input.allowSegments && DEFAULT_SEGMENTED_TRANSFER_MIN_SIZE <= input.expectedSize)
  }

  function Truncated(bytes: Bytes, size: nat): Bytes {
    if size <= |bytes| then bytes[..size] else bytes + seq(size - |bytes|, _ => 0)
  }

  function WriteAt(bytes: Bytes, position: int, value: Bytes): Bytes
    requires 0 <= position && position + |value| <= |bytes|
  {
    bytes[..position] + value + bytes[position + |value|..]
  }

  /** What a transfer that does not complete leaves of its work file. */
  function Cleanup(run: Run, disk: Disk): Disk {
    match run.cause
    case PauseCause | ShutdownCause => disk
    case CancelCause => disk.RemoveWork()
    case NoCause =>
      if !Segmented(run.input) && 0 < run.input.offset then
        if disk.work.Some? then disk.WriteWork(Truncated(disk.work.value, run.input.offset)) else disk
      else
        disk.RemoveWork()
  }

  function Save(c: Cell): Cell
    requires c.memory.Up?
  {
    c.(store := Some(Stored(c.memory.task, c.memory.request)))
  }

  function WithPhase(c: Cell, phase: Phase): Cell
    requires c.memory.Up? && c.memory.run.Some?
  {
    c.(memory := c.memory.(run := Some(c.memory.run.value.(phase := phase))))
  }

  function Fail(c: Cell, fault: Fault): Cell
    requires c.memory.Up? && c.memory.run.Some?
  {
    WithPhase(c, Returned(Failure(fault))).(disk := Cleanup(c.memory.run.value, c.disk))
  }

  /** A progress report reaches the manager: accepted while downloading, or while pausing if it carries a checkpoint. */
  function Deliver(c: Cell, downloaded: int, total: int, checkpoint: Option<TransferCheckpoint>): Cell
    requires c.memory.Up?
  {
    if !AcceptsReport(c.memory.task, downloaded, total, checkpoint) then c
    else Save(c.(memory := c.memory.(task := ReportedTask(c.memory.task, downloaded, total),
                                     request := ReportedRequest(c.memory.request, total, checkpoint))))
  }

  function DeliverCheckpoint(c: Cell, checkpoint: TransferCheckpoint): Cell
    requires c.memory.Up?
  {
    Deliver(c, Downloaded(checkpoint), checkpoint.total, Some(checkpoint))
  }

  // ---------------------------------------------------------------------
  // The transfer goroutine

  /** What a work file that has the expected size is taken for. */
  function SizeProof(world: World, request: Request): Proof {
    if request.validator.None? then Proof(0, false)
    else Proof(request.validator.value, |world(request.validator.value)| <= request.expectedSize)
  }

  /** The checks before the first request, and the opening of the work file. */
  function Begin(world: World, c: Cell, openOk: bool): Cell
    requires c.memory.Up? && c.memory.run.Some?
  {
    var input := c.memory.run.value.input;
    var refused := WithPhase(c, Returned(Failure(Permanent)));
    if input.offset < 0 || (0 < input.expectedSize < input.offset) || c.disk.dest.Some? then refused
    else if Segmented(input) then
      if input.validator.None? then refused
      else if input.checkpoint.None? && input.expectedSize < DEFAULT_SEGMENTED_TRANSFER_MIN_SIZE then refused
      else
        var checkpoint := if input.checkpoint.Some? then input.checkpoint.value
                          else FreshCheckpoint(input.expectedSize, SEGMENTED_CONNECTION_COUNT);
        if !ValidCheckpoint(checkpoint, input.expectedSize) || Downloaded(checkpoint) != input.offset then refused
        else if input.checkpoint.Some? then
          if c.disk.work.None? || |c.disk.work.value| != checkpoint.total || !openOk then refused
          else WithPhase(c, Segments(checkpoint, [], false))
        else if c.disk.work.Some? || !openOk then refused
        else WithPhase(c, Segments(checkpoint, [], false)).(disk := c.disk.WriteWork(Truncated([], checkpoint.total)))
    else if input.offset == 0 then
      if c.disk.work.Some? || !openOk then refused
      else WithPhase(c, Requested).(disk := c.disk.WriteWork([]))
    else if c.disk.work.None? || |c.disk.work.value| != input.offset || !openOk then refused
    else if 0 < input.expectedSize == input.offset then
      WithPhase(c, Sealed(input.offset, SizeProof(world, input)))
    else WithPhase(c, Requested)
  }

  /** The outcome of the single-connection response header: a fault, or the body to read. */
  function AcceptReply(world: World, input: Request, response: Response): (Option<Reply>, Fault) {
    if IsTemporaryStatus(response.status) then (None, Transient)
    else if response.status == PRECONDITION_FAILED && input.validator.Some? then (None, Permanent)
    else if 0 < input.offset && response.status != PARTIAL_CONTENT then (None, Permanent)
    else if input.offset == 0 && !IsSuccess(response.status) then (None, Permanent)
    else if ResourceValidatorChanged(input.validator, response) || !response.identity then (None, Permanent)
    else
      var range := ParseResumeContentRange(response.range, input.offset);
      if 0 < input.offset && (range.None? || (0 <= response.length && response.length != range.value.1))
      then (None, Permanent)
      else
        var total := if 0 < input.offset then range.value.0 else response.length;
        if 0 < input.expectedSize && 0 <= total && total != input.expectedSize then (None, Permanent)
        else
          var isPart := response.status == PARTIAL_CONTENT && response.range.Some?;
          var limit := if 0 < input.offset then input.offset + range.value.1
                       else if isPart then response.range.value.Length()
                       else |world(response.version)|;
          var shift := if input.offset == 0 && isPart then response.range.value.start else 0;
          (Some(Reply(response.version, shift, limit, total, response.framed)), Permanent)
  }

  /** The end of a body: the last report, the size checks, and what they vouch for. */
  function FinishBody(world: World, c: Cell): Cell
    requires c.memory.Up? && c.memory.run.Some? && c.memory.run.value.phase.Body?
  {
    var input := c.memory.run.value.input;
    var reply := c.memory.run.value.phase.reply;
    var downloaded := c.memory.run.value.phase.downloaded;
    var reported := Deliver(c, downloaded, reply.total, None);
    if (0 <= reply.total && downloaded != reply.total) || (0 < input.expectedSize && downloaded != input.expectedSize)
    then Fail(reported, Permanent)
    else WithPhase(reported, Sealed(downloaded, Proof(reply.version,
      || 0 <= reply.total
      || (reply.framed && reply.limit == |world(reply.version)|)
      || (0 < input.expectedSize && input.validator.Some? && |world(reply.version)| <= input.expectedSize))))
  }

  /** Whether a segment worker accepts its response header. */
  predicate AcceptSegment(input: Request, checkpoint: TransferCheckpoint, index: nat, response: Response)
    requires index < |checkpoint.segments|
  {
    var segment := checkpoint.segments[index];
    var start := segment.start + segment.completed;
    var range := ParseResumeContentRange(response.range, start);
    && response.status == PARTIAL_CONTENT
    && !ResourceValidatorChanged(input.validator, response) && response.identity
    && range == Some((checkpoint.total, segment.end - start + 1))
    && (0 <= response.length ==> response.length == segment.end - start + 1)
  }

  function LaunchWorkers(checkpoint: TransferCheckpoint): seq<Worker> {
    seq(|checkpoint.segments|, i requires 0 <= i < |checkpoint.segments| =>
      if checkpoint.segments[i].completed == checkpoint.segments[i].Length() then Finished(true) else Asking)
  }

  function CountBytes(checkpoint: TransferCheckpoint, index: nat, count: nat): TransferCheckpoint
    requires index < |checkpoint.segments|
  {
    var segment := checkpoint.segments[index];
    checkpoint.(segments := checkpoint.segments[index := segment.(completed := segment.completed + count)])
  }

  /** The run is in the segmented phase and `index` names one of its workers. */
  predicate HasWorker(c: Cell, index: nat)
    requires c.memory.Up? && c.memory.run.Some?
  {
    var phase := c.memory.run.value.phase;
    phase.Segments? && phase.announced && index < |phase.workers| == |phase.checkpoint.segments| && c.disk.work.Some?
  }

  function WithWorker(c: Cell, index: nat, worker: Worker): Cell
    requires c.memory.Up? && c.memory.run.Some? && HasWorker(c, index)
  {
    var phase := c.memory.run.value.phase;
    WithPhase(c, Segments(phase.checkpoint, phase.workers[index := worker], true))
  }

  function SegmentRespondStep(c: Cell, index: nat, response: Response): Option<Cell>
    requires c.memory.Up? && c.memory.run.Some?
  {
    if !HasWorker(c, index) || !c.memory.run.value.phase.workers[index].Asking? then None
    else Some(WithWorker(c, index,
      if AcceptSegment(c.memory.run.value.input, c.memory.run.value.phase.checkpoint, index, response)
      then Receiving(response.version, 0) else Finished(false)))
  }

  /** Part of a chunk reaches the file, or the chunk is refused because it exceeds the segment. */
  function SegmentWriteStep(world: World, c: Cell, index: nat, count: nat): Option<Cell>
    requires c.memory.Up? && c.memory.run.Some?
  {
    if !HasWorker(c, index) || !c.memory.run.value.phase.workers[index].Receiving? then None
    else
      var segment := c.memory.run.value.phase.checkpoint.segments[index];
      var Receiving(version, ahead) := c.memory.run.value.phase.workers[index];
      var position := segment.start + segment.completed + ahead;
      if segment.Length() < segment.completed + ahead + count then Some(WithWorker(c, index, Finished(false)))
      else if !(0 <= position <= position + count <= |world(version)| && position + count <= |c.disk.work.value|)
      then None
      else
        var written := WriteAt(c.disk.work.value, position, world(version)[position..position + count]);
        Some(WithWorker(c, index, Receiving(version, ahead + count)).(disk := c.disk.WriteWork(written)))
  }

  /** The worker counts what it wrote in the shared checkpoint, and may take a snapshot to report. */
  function SegmentCountStep(c: Cell, index: nat, report: bool): Option<Cell>
    requires c.memory.Up? && c.memory.run.Some?
  {
    if !HasWorker(c, index) || !c.memory.run.value.phase.workers[index].Receiving? then None
    else
      var Receiving(version, ahead) := c.memory.run.value.phase.workers[index];
      var counted := CountBytes(c.memory.run.value.phase.checkpoint, index, ahead);
      var next := if report then Reporting(version, counted) else Receiving(version, 0);
      Some(WithPhase(c, Segments(counted, c.memory.run.value.phase.workers[index := next], true)))
  }

  /** A snapshot taken under the progress lock reaches the manager after the lock was released. */
  function SegmentDeliverStep(c: Cell, index: nat): Option<Cell>
    requires c.memory.Up? && c.memory.run.Some?
  {
    if !HasWorker(c, index) || !c.memory.run.value.phase.workers[index].Reporting? then None
    else
      var Reporting(version, snapshot) := c.memory.run.value.phase.workers[index];
      Some(DeliverCheckpoint(WithWorker(c, index, Receiving(version, 0)), snapshot))
  }

  function SegmentEndStep(c: Cell, index: nat): Option<Cell>
    requires c.memory.Up? && c.memory.run.Some?
  {
    if !HasWorker(c, index) || !c.memory.run.value.phase.workers[index].Receiving? then None
    else
      var segment := c.memory.run.value.phase.checkpoint.segments[index];
      if c.memory.run.value.phase.workers[index].ahead != 0 then None
      else Some(WithWorker(c, index, Finished(segment.completed == segment.Length())))
  }

  function SegmentBreakStep(c: Cell, index: nat): Option<Cell>
    requires c.memory.Up? && c.memory.run.Some?
  {
    if !HasWorker(c, index) then None
    else
      var worker := c.memory.run.value.phase.workers[index];
      if worker.Asking? || worker.Receiving? then Some(WithWorker(c, index, Finished(false))) else None
  }

  predicate AllFinished(workers: seq<Worker>) {
    forall i :: 0 <= i < |workers| ==> workers[i].Finished?
  }

  predicate AllSucceeded(workers: seq<Worker>) {
    forall i :: 0 <= i < |workers| ==> workers[i] == Finished(true)
  }

  function RespondStep(world: World, c: Cell, response: Response): Option<Cell>
    requires c.memory.Up? && c.memory.run.Some?
  {
    var run := c.memory.run.value;
    if !run.phase.Requested? then None
    else
      var (reply, fault) := AcceptReply(world, run.input, response);
      Some(if reply.None? then Fail(c, fault) else WithPhase(c, Body(reply.value, run.input.offset, false)))
  }

  /** The report before the first read, or a later one. */
  function ReportStep(c: Cell, first: bool): Option<Cell>
    requires c.memory.Up? && c.memory.run.Some?
  {
    var phase := c.memory.run.value.phase;
    if !phase.Body? || phase.announced == first then None
    else Some(WithPhase(Deliver(c, phase.downloaded, phase.reply.total, None),
                        Body(phase.reply, phase.downloaded, true)))
  }

  function ReceiveStep(world: World, c: Cell, count: nat): Option<Cell>
    requires c.memory.Up? && c.memory.run.Some?
  {
    var phase := c.memory.run.value.phase;
    if !phase.Body? || !phase.announced || c.disk.work.None? then None
    else
      var remote := world(phase.reply.version);
      var from := phase.downloaded + phase.reply.shift;
      if !(phase.downloaded + count <= phase.reply.limit && 0 <= from <= from + count <= |remote|) then None
      else Some(WithPhase(c, Body(phase.reply, phase.downloaded + count, true)).(disk :=
        c.disk.WriteWork(c.disk.work.value + remote[from..from + count])))
  }

  /** A marked body ends only at its end; an unmarked one may seem to end anywhere. */
  function EndOfBodyStep(world: World, c: Cell): Option<Cell>
    requires c.memory.Up? && c.memory.run.Some?
  {
    var phase := c.memory.run.value.phase;
    if !phase.Body? || !phase.announced || (phase.reply.framed && phase.downloaded != phase.reply.limit) then None
    else Some(FinishBody(world, c))
  }

  function BreakOffStep(c: Cell, fault: Fault): Option<Cell>
    requires c.memory.Up? && c.memory.run.Some?
  {
    var phase := c.memory.run.value.phase;
    if phase.Requested? || phase.Body? || phase.Settled? || phase.Sealed? then Some(Fail(c, fault)) else None
  }

  function SegmentAnnounceStep(c: Cell): Option<Cell>
    requires c.memory.Up? && c.memory.run.Some?
  {
    var phase := c.memory.run.value.phase;
    if !phase.Segments? || phase.announced then None
    else Some(WithPhase(DeliverCheckpoint(c, phase.checkpoint),
                        Segments(phase.checkpoint, LaunchWorkers(phase.checkpoint), true)))
  }

  /** All workers have stopped: the last report. */
  function SegmentsSettleStep(c: Cell): Option<Cell>
    requires c.memory.Up? && c.memory.run.Some?
  {
    var phase := c.memory.run.value.phase;
    if !phase.Segments? || !phase.announced || !AllFinished(phase.workers) then None
    else Some(WithPhase(DeliverCheckpoint(c, phase.checkpoint), Settled(phase.checkpoint, AllSucceeded(phase.workers))))
  }

  function SegmentsConcludeStep(c: Cell): Option<Cell>
    requires c.memory.Up? && c.memory.run.Some?
  {
    var run := c.memory.run.value;
    if !run.phase.Settled? || run.cause != NoCause || !run.phase.clean then None
    else
      var checkpoint := run.phase.checkpoint;
      if !ValidCheckpoint(checkpoint, checkpoint.total) || Downloaded(checkpoint) != checkpoint.total
      then Some(Fail(c, Permanent))
      else if c.disk.work.None? || |c.disk.work.value| != checkpoint.total || run.input.validator.None?
      then Some(Fail(c, Permanent))
      else Some(WithPhase(c, Sealed(checkpoint.total, Proof(run.input.validator.value, true))))
  }

  /** The destination appears as a second name of the finished work file. */
  function LinkStep(c: Cell, ok: bool): Option<Cell>
    requires c.memory.Up? && c.memory.run.Some?
  {
    var phase := c.memory.run.value.phase;
    if !phase.Sealed? then None
    else if c.disk.dest.Some? || !ok || c.disk.work.None? then Some(Fail(c, Permanent))
    else Some(WithPhase(c, Linked(phase.size)).(disk := c.disk.Link(), published := Some(phase.proof)))
  }

  function UnlinkStep(c: Cell, ok: bool): Option<Cell>
    requires c.memory.Up? && c.memory.run.Some?
  {
    var phase := c.memory.run.value.phase;
    if !phase.Linked? then None
    else Some(WithPhase(c, Returned(Success(phase.size))).(disk := if ok then c.disk.RemoveWork() else c.disk))
  }

  function ExitStep(c: Cell, maxRetries: nat, retryAt: Time): Option<Cell>
    requires c.memory.Up? && c.memory.run.Some?
  {
    var phase := c.memory.run.value.phase;
    if phase.Returned? then Some(Exit(c, phase.outcome, maxRetries, retryAt)) else None
  }

  /** The run leaves the manager: completed, canceled, waiting for a retry, or failed. */
  function Exit(c: Cell, outcome: Outcome, maxRetries: nat, retryAt: Time): Cell
    requires c.memory.Up?
  {
    var task := c.memory.task;
    var request := c.memory.request;
    if task.state != Downloading then
      c.(memory := c.memory.(run := None))
    else if outcome == Failure(Transient) && task.retryCount < maxRetries then
      var (prepared, disk) := PrepareAutomaticRetry(request, c.disk);
      var retrying := RetryingTask(task, prepared.offset, retryAt);
      Save(c.(disk := disk, memory := c.memory.(run := None, task := retrying, request := prepared)))
    else
      var ended := match outcome
        case Success(size) => CompletedTask(task, size)
        case Failure(Interrupted) => CanceledTask(task)
        case Failure(fault) => FailedTask(task, fault == Transient);
      Save(c.(memory := c.memory.(run := None, task := ended, request := request.(checkpoint := None))))
  }

  // ---------------------------------------------------------------------
  // The manager's operations

  function StartStep(c: Cell): Option<Cell>
    requires c.memory.Up?
  {
    if c.memory.task.state != Queued || c.memory.operation == Closing then None
    else Some(Save(c.(memory := c.memory.(task := Tasks.Started(c.memory.task),
                                          run := Some(Run(c.memory.request, NoCause, Starting))))))
  }

  function PauseStep(c: Cell): Option<Cell>
    requires c.memory.Up?
  {
    if !IsActiveState(c.memory.task.state) || c.memory.operation != Idle then None
    else Some(Save(c.(memory := c.memory.(task := PausedTask(c.memory.task),
                                          operation := if c.memory.run.Some? then Pausing else Idle))))
  }

  /** The waiting operation cancels the run's context. */
  function SignalStep(c: Cell): Option<Cell>
    requires c.memory.Up?
  {
    if c.memory.operation == Idle || c.memory.run.None? || c.memory.run.value.cause != NoCause then None
    else
      var cause := match c.memory.operation
        case Pausing => PauseCause
        case Canceling => CancelCause
        case _ => ShutdownCause;
      Some(c.(memory := c.memory.(run := Some(c.memory.run.value.(cause := cause)))))
  }

  function FinishPauseStep(c: Cell, saved: bool): Option<Cell>
    requires c.memory.Up?
  {
    if c.memory.operation != Pausing || c.memory.run.Some? then None
    else
      var idle := c.(memory := c.memory.(operation := Idle));
      var progress := PartialProgress(c.memory.task, c.memory.request, c.disk);
      if progress.None? || c.memory.task.state != TaskState.Paused then Some(idle)
      else
        var updated := idle.(memory := idle.memory.(task := c.memory.task.(downloaded := progress.value)));
        Some(if saved then Save(updated) else updated)
  }

  function ResumeStep(c: Cell, saved: bool): Option<Cell>
    requires c.memory.Up?
  {
    var task := c.memory.task;
    var request := PrepareResume(task, c.memory.request, c.disk);
    if task.state != TaskState.Paused || c.memory.operation != Idle || request.None? then None
    else
      var disk := if request.value.checkpoint.None? && task.downloaded == 0 then c.disk.RemoveWork() else c.disk;
      var next := RequeuedByUser(task, task.downloaded);
      var resumed := c.(disk := disk, memory := c.memory.(
        task := if saved then next else next.(state := TaskState.Paused), request := request.value));
      Some(if saved then Save(resumed) else resumed)
  }

  function RetryNowStep(c: Cell, saved: bool): Option<Cell>
    requires c.memory.Up?
  {
    var task := c.memory.task;
    var prepared := PrepareManualRetry(c.memory.request, task.total, c.disk);
    if task.state != Failed || task.error.None? || !task.error.value.retryable || c.memory.operation != Idle then None
    else if c.disk.dest.Some? || prepared.None? then None
    else
      var (next, kept, disk) := prepared.value;
      var retried := c.(disk := disk, memory := c.memory.(
        task := RequeuedByUser(task, kept), request := next.(offset := kept, expectedSize := task.total)));
      Some(if saved then Save(retried) else c.(disk := disk))
  }

  function RetryDueStep(c: Cell): Option<Cell>
    requires c.memory.Up?
  {
    if c.memory.task.state != Retrying then None
    else Some(Save(c.(memory := c.memory.(task := RequeuedAfterDelay(c.memory.task)))))
  }

  function CancelStep(c: Cell, saved: bool): Option<Cell>
    requires c.memory.Up?
  {
    var task := c.memory.task;
    if !(IsActiveState(task.state) || task.state == TaskState.Paused) || c.memory.operation != Idle then None
    else
      var dropped := c.memory.request.(checkpoint := None);
      var canceled := c.(memory := c.memory.(task := CanceledTask(task), request := dropped, operation := Canceling));
      Some(if saved then Save(canceled) else canceled)
  }

  function FinishCancelStep(c: Cell): Option<Cell>
    requires c.memory.Up?
  {
    if c.memory.operation != Canceling || c.memory.run.Some? then None
    else Some(c.(disk := c.disk.RemoveWork(), memory := c.memory.(operation := Idle)))
  }

  function CloseStep(c: Cell, now: Time): Option<Cell>
    requires c.memory.Up?
  {
    var task := c.memory.task;
    if c.memory.operation != Idle then None
    else
      var keeps := task.state == Queued && InFuture(task, now) && task.downloaded == 0;
      var closing := c.(memory := c.memory.(operation := Closing));
      Some(if !IsActiveState(task.state) then closing
           else if keeps then Save(closing)
           else Save(closing.(memory := closing.memory.(task := PausedTask(task)))))
  }

  function FinishCloseStep(c: Cell, saved: bool): Option<Cell>
    requires c.memory.Up?
  {
    var task := c.memory.task;
    if c.memory.operation != Closing || c.memory.run.Some? then None
    else
      var progress := PartialProgress(task, c.memory.request, c.disk);
      var counts := task.state == TaskState.Paused && progress.Some?;
      var settled := if counts then task.(downloaded := progress.value) else task;
      var closed := c.(memory := c.memory.(task := settled));
      Some((if task.state == TaskState.Paused && saved then Save(closed) else closed).(memory := Down))
  }

  /** The file is removed first, then the record; if the store fails, the task stays. */
  function DeleteStep(c: Cell, deleteFile: bool, removed: bool): Option<Cell>
    requires c.memory.Up?
  {
    if !IsTerminalState(c.memory.task.state) || c.memory.operation != Idle then None
    else
      var kept := if deleteFile && c.memory.task.state == Completed
                  then c.(disk := Disk(c.disk.work, None, false), published := None) else c;
      Some(if removed then kept.(store := None, memory := Down) else kept)
  }

  /** A crash in the exit section of a run, after it removed the work file and before it stored the task. */
  function CrashInExitStep(c: Cell): Option<Cell>
    requires c.memory.Up?
  {
    if c.memory.run.None? || c.memory.run.value.phase != Returned(Failure(Transient))
      || c.memory.task.state != Downloading then None
    else Some(c.(disk := PrepareAutomaticRetry(c.memory.request, c.disk).1, memory := Down))
  }

  /** The engine starts again on what the crash or shutdown left. */
  function RestoreStep(c: Cell, now: Time, saved: bool): Option<Cell> {
    if !c.memory.Down? || c.store.None? then None
    else
      var recovered := Reconcile(c.store.value, c.disk, now);
      if recovered.None? then None
      else
        var restored := c.(disk := recovered.value.disk);
        Some(if !saved then restored
             else Save(restored.(memory := Up(recovered.value.task, recovered.value.request, None, Idle))))
  }

  /** One step of the transfer goroutine. */
  function RunNext(world: World, c: Cell, event: Event): Option<Cell>
    requires c.memory.Up? && c.memory.run.Some?
  {
    match event
    case BeginTransfer(openOk) => if c.memory.run.value.phase.Starting? then Some(Begin(world, c, openOk)) else None
    case Respond(response) => RespondStep(world, c, response)
    case Announce => ReportStep(c, true)
    case Receive(count) => ReceiveStep(world, c, count)
    case Report => ReportStep(c, false)
    case EndOfBody => EndOfBodyStep(world, c)
    case BreakOff(fault) => BreakOffStep(c, fault)
    case SegmentAnnounce => SegmentAnnounceStep(c)
    case SegmentRespond(i, response) => SegmentRespondStep(c, i, response)
    case SegmentWrite(i, count) => SegmentWriteStep(world, c, i, count)
    case SegmentCount(i, report) => SegmentCountStep(c, i, report)
    case SegmentDeliver(i) => SegmentDeliverStep(c, i)
    case SegmentEnd(i) => SegmentEndStep(c, i)
    case SegmentBreak(i) => SegmentBreakStep(c, i)
    case SegmentsSettle => SegmentsSettleStep(c)
    case SegmentsConclude => SegmentsConcludeStep(c)
    case LinkFile(ok) => LinkStep(c, ok)
    case UnlinkWork(ok) => UnlinkStep(c, ok)
    case ExitRun(maxRetries, retryAt) => ExitStep(c, maxRetries, retryAt)
    case _ => None
  }

  /** One locked section of the manager. */
  function ManagerNext(c: Cell, event: Event): Option<Cell>
    requires c.memory.Up?
  {
    match event
    case StartRun => StartStep(c)
    case Pause => PauseStep(c)
    case SignalRun => SignalStep(c)
    case FinishPause(saved) => FinishPauseStep(c, saved)
    case Resume(saved) => ResumeStep(c, saved)
    case RetryNow(saved) => RetryNowStep(c, saved)
    case RetryDue => RetryDueStep(c)
    case Cancel(saved) => CancelStep(c, saved)
    case FinishCancel => FinishCancelStep(c)
    case Close(now) => CloseStep(c, now)
    case FinishClose(saved) => FinishCloseStep(c, saved)
    case Delete(deleteFile, removed) => DeleteStep(c, deleteFile, removed)
    case Crash => Some(c.(memory := Down))
    case CrashInExit => CrashInExitStep(c)
    case _ => None
  }

  predicate IsManagerEvent(event: Event) {
    || event.StartRun? || event.Pause? || event.SignalRun? || event.FinishPause? || event.Resume? || event.RetryNow?
    || event.RetryDue? || event.Cancel? || event.FinishCancel? || event.Close? || event.FinishClose? || event.Delete?
    || event.Crash? || event.CrashInExit?
  }

  /** One step of the protocol; None when the event is not possible. */
  function Next(world: World, c: Cell, event: Event): Option<Cell> {
    if c.memory.Down? then (if event.Restore? then RestoreStep(c, event.now, event.saved) else None)
    else if IsManagerEvent(event) then ManagerNext(c, event)
    else if c.memory.run.Some? then RunNext(world, c, event)
    else None
  }

  /** A freshly created task: neither of its paths is taken, and it is stored. */
  function Created(expectedSize: int, scheduledAt: Option<Time>, acceptRanges: bool, validator: Option<Version>): Cell {
    var task := NewTask(expectedSize, scheduledAt);
    Save(Cell(Disk(None, None, false), None, Up(task, NewRequest(task, acceptRanges, validator), None, Idle), None))
  }

  /** The network answers a task with these headers of its own honestly in this step; every other event is free. */
  ghost predicate HonestTo(world: World, own: Option<ByteRange>, c: Cell, event: Event) {
    match event
    case Respond(response) =>
      c.memory.Up? && c.memory.run.Some? ==>
        Honest(world, own, response, c.memory.run.value.input.validator, 0 < c.memory.run.value.input.offset)
    case SegmentRespond(_, response) =>
      c.memory.Up? && c.memory.run.Some? ==>
        Honest(world, own, response, c.memory.run.value.input.validator, true)
    case _ => true
  }

  /** The events, in this order, are possible from `from`, are honest, and lead to `to`. */
  ghost predicate LeadsWith(world: World, own: Option<ByteRange>, from: Cell, events: seq<Event>, to: Cell)
    decreases |events|
  {
    if events == [] then from == to
    else
      && HonestTo(world, own, from, events[0])
      && Next(world, from, events[0]).Some?
      && LeadsWith(world, own, Next(world, from, events[0]).value, events[1..], to)
  }

  /** As above, for a task without a Range among its own headers. */
  ghost predicate HonestEvent(world: World, c: Cell, event: Event) {
    HonestTo(world, None, c, event)
  }

  ghost predicate Leads(world: World, from: Cell, events: seq<Event>, to: Cell) {
    LeadsWith(world, None, from, events, to)
  }

  lemma EmptyRun(world: World, own: Option<ByteRange>, c: Cell)
    ensures LeadsWith(world, own, c, [], c)
  {
  }

  /** A possible honest step, followed by a run. */
  lemma StepThen(world: World, own: Option<ByteRange>, from: Cell, event: Event, next: Cell, rest: seq<Event>, to: Cell)
    requires HonestTo(world, own, from, event) && Next(world, from, event) == Some(next)
    requires LeadsWith(world, own, next, rest, to)
    ensures LeadsWith(world, own, from, [event] + rest, to)
  {
    hide Next, HonestTo;
    assert ([event] + rest)[1..] == rest;
  }

  lemma {:induction false} RunThen(world: World, own: Option<ByteRange>, from: Cell, first: seq<Event>, mid: Cell,
                                   rest: seq<Event>, to: Cell)
    requires LeadsWith(world, own, from, first, mid) && LeadsWith(world, own, mid, rest, to)
    ensures LeadsWith(world, own, from, first + rest, to)
    decreases |first|
  {
    hide Next, HonestTo;
    if first == [] {
      assert [] + rest == rest;
    } else {
      RunThen(world, own, Next(world, from, first[0]).value, first[1..], mid, rest, to);
      assert (first + rest)[1..] == first[1..] + rest;
    }
  }

  /** Tasks of this creation use segments as long as their size is known. */
  predicate UsesSegments(expectedSize: int, acceptRanges: bool, validator: Option<Version>) {
    acceptRanges && validator.Some? && DEFAULT_SEGMENTED_TRANSFER_MIN_SIZE <= expectedSize
  }

  /** A size given at creation is exact where it allows segments. */
  ghost predicate SegmentSizeRight(world: World, expectedSize: int, acceptRanges: bool, validator: Option<Version>) {
    UsesSegments(expectedSize, acceptRanges, validator) ==> expectedSize == |world(validator.value)|
  }

  /**
   A size given at creation is not below that of the version the validator names, and exactly that where
   it allows segments.
   */
  ghost predicate SizeGivenRight(world: World, expectedSize: int, acceptRanges: bool, validator: Option<Version>) {
    && SegmentSizeRight(world, expectedSize, acceptRanges, validator)
    && (validator.Some? && 0 < expectedSize ==> |world(validator.value)| <= expectedSize)
  }
}
