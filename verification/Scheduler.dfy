/**
 The task scheduler: tasks, the FIFO queue, the live runs, planned starts
 with one timer, delayed retries, and a concurrency limit that may change at
 any time. Each action is one locked section of the manager and takes one
 reading of the clock.
 */
module SchedulerSpec {
  import opened Basics
  import opened Checkpoints
  import opened Recovery
  import opened Tasks

  type TaskID = nat

  datatype Timer = Timer(at: Time, generation: nat)

  /** The operation that holds the operation lock while it waits for a run to end. */
  datatype Hold = Free | PauseHold(id: TaskID) | CancelHold(id: TaskID)

  /**
   `runs` maps a task to the token of its current run; `live` holds the run goroutines that have not
   passed their exit section, and `waiters` the goroutines that sleep until a retry is due.
   */
  datatype State = State(
    tasks: map<TaskID, Task>,
    requests: map<TaskID, Request>,
    queue: seq<TaskID>,
    runs: map<TaskID, nat>,
    live: set<(TaskID, nat)>,
    waiters: multiset<(TaskID, Time)>,
    timer: Option<Timer>,
    generation: nat,
    nextRun: nat,
    maxConcurrent: nat,
    maxRetries: nat,
    hold: Hold,
    closed: bool
  )

  // ---------------------------------------------------------------------
  // The queue

  function Without(queue: seq<TaskID>, id: TaskID): seq<TaskID> {
    Filter(queue, other => other != id)
  }

  function Enqueue(s: State, id: TaskID): State {
    s.(queue := Without(s.queue, id) + [id])
  }

  predicate IsQueued(s: State, id: TaskID) {
    id in s.tasks && s.tasks[id].state == Queued
  }

  predicate Deferred(s: State, now: Time, id: TaskID) {
    IsQueued(s, id) && InFuture(s.tasks[id], now)
  }

  predicate Due(s: State, now: Time, id: TaskID) {
    IsQueued(s, id) && !InFuture(s.tasks[id], now) && id in s.requests
  }

  function DueOf(s: State, now: Time, queue: seq<TaskID>): seq<TaskID> {
    Filter(queue, id => Due(s, now, id))
  }

  function DeferredOf(s: State, now: Time, queue: seq<TaskID>): seq<TaskID> {
    Filter(queue, id => Deferred(s, now, id))
  }

  /** How many entries are taken from the queue until `free` due tasks were found or it is exhausted. */
  function PopCount(s: State, now: Time, queue: seq<TaskID>, free: nat): nat {
    if free == 0 || queue == [] then 0
    else 1 + PopCount(s, now, queue[1..], if Due(s, now, queue[0]) then free - 1 else free)
  }

  function FreeSlots(s: State): nat {
    if |s.runs| < s.maxConcurrent then s.maxConcurrent - |s.runs| else 0
  }

  function StartOne(s: State, id: TaskID): State {
    if id !in s.tasks then s
    else s.(tasks := s.tasks[id := Started(s.tasks[id])], runs := s.runs[id := s.nextRun],
            live := s.live + {(id, s.nextRun)}, nextRun := s.nextRun + 1)
  }

  function StartAll(s: State, ids: seq<TaskID>): State {
    if ids == [] then s else StartOne(StartAll(s, ids[..|ids| - 1]), ids[|ids| - 1])
  }

  // ---------------------------------------------------------------------
  // The timer and the fill

  function EarliestPlan(s: State, now: Time, queue: seq<TaskID>): Option<Time> {
    if queue == [] then None
    else
      var before := EarliestPlan(s, now, queue[..|queue| - 1]);
      var id := queue[|queue| - 1];
      if !Deferred(s, now, id) then before
      else if before.None? || s.tasks[id].scheduledAt.value < before.value then s.tasks[id].scheduledAt
      else before
  }

  function RefreshTimer(s: State, now: Time): State {
    var earliest := if s.closed then None else EarliestPlan(s, now, s.queue);
    s.(generation := s.generation + 1,
       timer := if earliest.None? then None else Some(Timer(earliest.value, s.generation + 1)))
  }

  /** The due tasks a fill starts, in order. */
  function FillStarts(s: State, now: Time): seq<TaskID> {
    DueOf(s, now, s.queue[..Min(PopCount(s, now, s.queue, FreeSlots(s)), |s.queue|)])
  }

  /** What a fill leaves in the queue: what it did not look at, then the planned tasks it passed over. */
  function FillLeaves(s: State, now: Time): seq<TaskID> {
    var popped := Min(PopCount(s, now, s.queue, FreeSlots(s)), |s.queue|);
    s.queue[popped..] + DeferredOf(s, now, s.queue[..popped])
  }

  function Fill(s: State, now: Time): State {
    if s.closed then s
    else RefreshTimer(StartAll(s.(queue := FillLeaves(s, now)), FillStarts(s, now)), now)
  }

  // ---------------------------------------------------------------------
  // The actions

  /** How a transfer ended; `disk` is what a transient failure left of the task's files. */
  datatype Ending = Completes(size: int) | Interrupts | FailsTransiently(disk: Disk) | FailsForGood

  /** What a caller, a timer or a transfer does; `disk` is the state the task's files are found in. */
  datatype Action =
    | Create(id: TaskID, input: NewDownload, saved: bool)
    | Pause(id: TaskID)
    | FinishPause(id: TaskID, disk: Disk)
    | Resume(id: TaskID, disk: Disk, saved: bool)
    | Retry(id: TaskID, disk: Disk, saved: bool)
    | Cancel(id: TaskID)
    | FinishCancel(id: TaskID)
    | Delete(id: TaskID, removed: bool)
    | ApplySettings(maxConcurrent: nat, maxRetries: nat)
    | Wake(generation: nat)
    | Progress(id: TaskID, token: nat, downloaded: int, total: int, checkpoint: Option<TransferCheckpoint>)
    | ExitRun(id: TaskID, token: nat, ending: Ending, baseDelay: Delay)
    | RetryDue(id: TaskID, at: Time)
    | Close
    | FinishClose(disks: map<TaskID, Disk>)

  /** What a creation asks for, as far as scheduling depends on it. */
  datatype NewDownload = NewDownload(
    expectedSize: int,
    scheduledAt: Option<Time>,
    acceptRanges: bool,
    validator: Option<Version>
  )

  predicate Idle(s: State) {
    !s.closed && s.hold == Free
  }

  predicate MayCreate(s: State, id: TaskID, input: NewDownload, now: Time) {
    Idle(s) && id !in s.tasks && -1 <= input.expectedSize && (input.scheduledAt.Some? ==> now < input.scheduledAt.value)
  }

  function CreateUpdate(s: State, id: TaskID, input: NewDownload): State {
    var task := NewTask(input.expectedSize, input.scheduledAt);
    var request := NewRequest(task, input.acceptRanges, input.validator);
    Enqueue(s.(tasks := s.tasks[id := task], requests := s.requests[id := request]), id)
  }

  predicate MayPause(s: State, id: TaskID) {
    && Idle(s) && id in s.tasks && IsActiveState(s.tasks[id].state)
    && (s.tasks[id].state == Downloading ==> id in s.runs)
  }

  function PauseUpdate(s: State, id: TaskID, now: Time): State
    requires id in s.tasks
  {
    RefreshTimer(s.(queue := Without(s.queue, id)), now)
    .(tasks := s.tasks[id := PausedTask(s.tasks[id])], hold := if id in s.runs then PauseHold(id) else Free)
  }

  /** A paused task counts what its files hold once its transfer has stopped. */
  function Reconciled(s: State, id: TaskID, disk: Disk): map<TaskID, Task>
    requires id in s.tasks && id in s.requests
  {
    var progress := PartialProgress(s.tasks[id], s.requests[id], disk);
    if s.tasks[id].state != TaskState.Paused || progress.None? then s.tasks
    else s.tasks[id := s.tasks[id].(downloaded := progress.value)]
  }

  predicate MayRequeue(s: State, id: TaskID) {
    Idle(s) && id in s.tasks && id in s.requests
  }

  function RequeueUpdate(s: State, id: TaskID, progress: int, request: Request): State
    requires id in s.tasks
  {
    var requeued := RequeuedByUser(s.tasks[id], progress);
    Enqueue(s.(tasks := s.tasks[id := requeued], requests := s.requests[id := request]), id)
  }

  /** The request a resume continues with; None when the task cannot be resumed. */
  function ResumePlan(s: State, id: TaskID, disk: Disk): Option<Request> {
    if !MayRequeue(s, id) || s.tasks[id].state != TaskState.Paused then None
    else PrepareResume(s.tasks[id], s.requests[id], disk)
  }

  /** A resume that could not be stored leaves the task paused, but with its failure and its plan forgotten. */
  function UnsavedResume(s: State, id: TaskID, request: Request): State
    requires id in s.tasks
  {
    s.(tasks := s.tasks[id := RequeuedByUser(s.tasks[id], s.tasks[id].downloaded).(state := TaskState.Paused)],
       requests := s.requests[id := request])
  }

  /** The request and the bytes a manual retry continues with; None when the task cannot be retried. */
  function RetryPlan(s: State, id: TaskID, disk: Disk): Option<(Request, int)> {
    if !MayRequeue(s, id) || s.tasks[id].state != Failed then None
    else if s.tasks[id].error.None? || !s.tasks[id].error.value.retryable || disk.dest.Some? then None
    else
      var prepared := PrepareManualRetry(s.requests[id], s.tasks[id].total, disk);
      if prepared.None? then None
      else
        var (request, kept, _) := prepared.value;
        Some((request.(offset := kept, expectedSize := s.tasks[id].total), kept))
  }

  predicate MayCancel(s: State, id: TaskID) {
    && Idle(s) && id in s.tasks && id in s.requests
    && (IsActiveState(s.tasks[id].state) || s.tasks[id].state == TaskState.Paused)
  }

  function CancelUpdate(s: State, id: TaskID, now: Time): State
    requires id in s.tasks && id in s.requests
  {
    RefreshTimer(s.(queue := Without(s.queue, id)), now)
    .(tasks := s.tasks[id := CanceledTask(s.tasks[id])],
      requests := s.requests[id := s.requests[id].(checkpoint := None)],
      hold := CancelHold(id))
  }

  predicate MayDelete(s: State, id: TaskID) {
    Idle(s) && id in s.tasks && IsTerminalState(s.tasks[id].state)
  }

  function DeleteUpdate(s: State, id: TaskID): State {
    s.(tasks := s.tasks - {id}, requests := s.requests - {id}, queue := Without(s.queue, id))
  }

  /** A report of a live run; a paused task takes one only from its current run. */
  function ProgressUpdate(s: State, id: TaskID, token: nat, downloaded: int, total: int,
                          checkpoint: Option<TransferCheckpoint>): State {
    if id !in s.tasks || id !in s.requests || !AcceptsReport(s.tasks[id], downloaded, total, checkpoint) then s
    else if s.tasks[id].state == TaskState.Paused && !(id in s.runs && s.runs[id] == token) then s
    else s.(tasks := s.tasks[id := ReportedTask(s.tasks[id], downloaded, total)],
            requests := s.requests[id := ReportedRequest(s.requests[id], total, checkpoint)])
  }

  /** How the task and its request go on when its run ends while it is downloading. */
  function EndedTask(task: Task, request: Request, ending: Ending, maxRetries: nat, retryAt: Time): (Task, Request) {
    var dropped := request.(checkpoint := None);
    match ending
    case Completes(size) => (CompletedTask(task, size), dropped)
    case Interrupts => (CanceledTask(task), dropped)
    case FailsTransiently(disk) =>
      if task.retryCount < maxRetries then
        var prepared := PrepareAutomaticRetry(request, disk).0;
        (RetryingTask(task, prepared.offset, retryAt), prepared)
      else (FailedTask(task, true), dropped)
    case FailsForGood => (FailedTask(task, false), dropped)
  }

  function DropRun(s: State, id: TaskID, token: nat): State {
    s.(runs := if id in s.runs && s.runs[id] == token then s.runs - {id} else s.runs, live := s.live - {(id, token)})
  }

  /** The downloading task `id` goes on or ends. */
  function EndUpdate(s: State, id: TaskID, ending: Ending, baseDelay: Delay, now: Time): State
    requires id in s.tasks && id in s.requests
  {
    var retryAt := now + RetryDelay(baseDelay, s.tasks[id].retryCount);
    var (ended, request) := EndedTask(s.tasks[id], s.requests[id], ending, s.maxRetries, retryAt);
    s.(tasks := s.tasks[id := ended], requests := s.requests[id := request],
       waiters := if ended.state == Retrying then s.waiters + multiset{(id, retryAt)} else s.waiters)
  }

  function ExitUpdate(s: State, id: TaskID, token: nat, ending: Ending, baseDelay: Delay, now: Time): State {
    var dropped := DropRun(s, id, token);
    if id !in s.tasks || id !in s.requests || s.tasks[id].state != Downloading then dropped
    else EndUpdate(dropped, id, ending, baseDelay, now)
  }

  /** The sleeping goroutine of a retry wakes; it acts only if the task still waits for exactly this moment. */
  predicate RetryStillWanted(s: State, id: TaskID, at: Time) {
    !s.closed && id in s.tasks && s.tasks[id].state == Retrying && s.tasks[id].nextRetryAt == Some(at)
  }

  function RetryDueUpdate(s: State, id: TaskID, at: Time): State {
    var woken := s.(waiters := s.waiters - multiset{(id, at)});
    if !RetryStillWanted(s, id, at) then woken
    else Enqueue(woken.(tasks := s.tasks[id := RequeuedAfterDelay(s.tasks[id])]), id)
  }

  function ClosedTask(task: Task, now: Time): Task {
    if task.state == Queued && InFuture(task, now) && task.downloaded == 0 then task
    else if IsActiveState(task.state) then PausedTask(task)
    else task
  }

  function CloseUpdate(s: State, now: Time): State {
    s.(closed := true, generation := s.generation + 1, timer := None, queue := [],
       tasks := map id | id in s.tasks :: ClosedTask(s.tasks[id], now))
  }

  /** The last section of a shutdown, when every run has ended: paused tasks count what their files hold. */
  function FinishCloseUpdate(s: State, disks: map<TaskID, Disk>): State {
    s.(tasks := map id | id in s.tasks ::
         if id in s.requests && id in disks then Reconciled(s, id, disks[id])[id] else s.tasks[id])
  }

  /** The state an action leaves before any task is started, and whether it then fills the free slots. */
  datatype Effect = Effect(state: State, fills: bool)

  /** What an action does up to its fill; None when the manager refuses it or it cannot happen. */
  function Update(s: State, action: Action, now: Time): Option<Effect> {
    match action
    case Create(id, input, saved) =>
      if !MayCreate(s, id, input, now) then None
      else if !saved then Some(Effect(s, false))
      else Some(Effect(CreateUpdate(s, id, input), true))
    case Pause(id) =>
      if MayPause(s, id) then Some(Effect(PauseUpdate(s, id, now), false)) else None
    case FinishPause(id, disk) =>
      if s.hold != PauseHold(id) || id in s.runs || id !in s.tasks || id !in s.requests then None
      else Some(Effect(s.(hold := Free, tasks := Reconciled(s, id, disk)), false))
    case Resume(id, disk, saved) =>
      var plan := ResumePlan(s, id, disk);
      if plan.None? then None
      else if !saved then Some(Effect(UnsavedResume(s, id, plan.value), false))
      else Some(Effect(RequeueUpdate(s, id, s.tasks[id].downloaded, plan.value), true))
    case Retry(id, disk, saved) =>
      var plan := RetryPlan(s, id, disk);
      if plan.None? then None
      else if !saved then Some(Effect(s, false))
      else Some(Effect(RequeueUpdate(s, id, plan.value.1, plan.value.0), true))
    case Cancel(id) =>
      if MayCancel(s, id) then Some(Effect(CancelUpdate(s, id, now), false)) else None
    case FinishCancel(id) =>
      if s.hold == CancelHold(id) && id !in s.runs then Some(Effect(s.(hold := Free), false)) else None
    case Delete(id, removed) =>
      if !MayDelete(s, id) then None
      else Some(Effect(if removed then DeleteUpdate(s, id) else s, false))
    case ApplySettings(maxConcurrent, maxRetries) =>
      if s.closed then Some(Effect(s, false))
      else Some(Effect(s.(maxConcurrent := maxConcurrent, maxRetries := maxRetries), true))
    case Wake(generation) =>
      if s.closed || generation != s.generation then Some(Effect(s, false))
      else Some(Effect(s.(timer := None), true))
    case Progress(id, token, downloaded, total, checkpoint) =>
      if (id, token) !in s.live then None
      else Some(Effect(ProgressUpdate(s, id, token, downloaded, total, checkpoint), false))
    case ExitRun(id, token, ending, baseDelay) =>
      if (id, token) !in s.live then None
      else Some(Effect(ExitUpdate(s, id, token, ending, baseDelay, now), true))
    case RetryDue(id, at) =>
      if (id, at) !in s.waiters || now < at then None
      else Some(Effect(RetryDueUpdate(s, id, at), RetryStillWanted(s, id, at)))
    case Close =>
      if Idle(s) then Some(Effect(CloseUpdate(s, now), false)) else None
    case FinishClose(disks) =>
      if s.closed && s.runs == map[] then Some(Effect(FinishCloseUpdate(s, disks), false)) else None
  }

  /** One action at time `now`. */
  function Next(s: State, action: Action, now: Time): Option<State> {
    var effect := Update(s, action, now);
    if effect.None? then None
    else Some(if effect.value.fills then Fill(effect.value.state, now) else effect.value.state)
  }

  // ---------------------------------------------------------------------
  // Starting the manager

  /** A stored task and the state its files are found in. */
  datatype Record = Record(id: TaskID, stored: StoredTask, disk: Disk)

  function Initial(maxConcurrent: nat, maxRetries: nat): State {
    State(map[], map[], [], map[], {}, multiset{}, None, 0, 0, maxConcurrent, maxRetries, Free, false)
  }

  function RestoreOne(s: State, record: Record, now: Time): Option<State> {
    var recovered := Reconcile(record.stored, record.disk, now);
    if recovered.None? || record.id in s.tasks then None
    else
      var task := recovered.value.task;
      var request := recovered.value.request;
      var known := s.(tasks := s.tasks[record.id := task], requests := s.requests[record.id := request]);
      Some(if task.state == Queued && InFuture(task, now) then Enqueue(known, record.id) else known)
  }

  function RestoreAll(s: State, records: seq<Record>, now: Time): Option<State> {
    if records == [] then Some(s)
    else
      var before := RestoreAll(s, records[..|records| - 1], now);
      if before.None? then None else RestoreOne(before.value, records[|records| - 1], now)
  }

  /** The manager as it starts on a store; None when a record is unreadable or stored twice. */
  function Restored(maxConcurrent: nat, maxRetries: nat, records: seq<Record>, now: Time): Option<State> {
    var restored := RestoreAll(Initial(maxConcurrent, maxRetries), records, now);
    if restored.None? then None else Some(RefreshTimer(restored.value, now))
  }

  /** How a manager may start: without a store, or on what a store holds. */
  ghost predicate IsStart(s: State) {
    || s == Initial(s.maxConcurrent, s.maxRetries)
    || exists records, now :: Restored(s.maxConcurrent, s.maxRetries, records, now) == Some(s)
  }

  // ---------------------------------------------------------------------
  // The invariant

  /** What holds in every state reachable before the manager is closed. */
  ghost predicate OpenInv(s: State) {
    && QueueOK(s) && RunsOK(s) && RetriesOK(s) && HoldOK(s)
    && s.tasks.Keys == s.requests.Keys
    && (s.timer.Some? ==> s.timer.value.generation == s.generation)
  }

  /** The queue has no duplicates and holds exactly the queued tasks. */
  ghost predicate QueueOK(s: State) {
    NoDuplicates(s.queue) && forall id :: id in s.queue <==> IsQueued(s, id)
  }

  /** Whose run this may be. */
  predicate MayRun(s: State, id: TaskID) {
    && id in s.tasks
    && match s.tasks[id].state
       case Downloading => true
       case Paused => s.hold == PauseHold(id)
       case Canceled => s.hold == CancelHold(id)
       case _ => false
  }

  /** One live run per downloading task; any other run belongs to a task whose operation waits for it. */
  ghost predicate RunsOK(s: State) {
    && (forall id :: id in s.runs ==> MayRun(s, id) && s.runs[id] < s.nextRun)
    && (forall id :: id in s.tasks && s.tasks[id].state == Downloading ==> id in s.runs)
    && (forall id, token :: (id, token) in s.live <==> id in s.runs && s.runs[id] == token)
  }

  /** A task that waits for a retry holds no slot, and a sleeping goroutine will wake for it. */
  ghost predicate RetriesOK(s: State) {
    forall id :: id in s.tasks && s.tasks[id].state == Retrying ==>
                   && id !in s.runs && s.tasks[id].nextRetryAt.Some?
                   && (id, s.tasks[id].nextRetryAt.value) in s.waiters
  }

  predicate HoldOK(s: State) {
    match s.hold
    case Free => true
    case PauseHold(id) => id in s.tasks && s.tasks[id].state == Paused
    case CancelHold(id) => id in s.tasks && s.tasks[id].state == Canceled
  }

  /**
   What holds from the beginning of a shutdown on: what still runs belongs to paused tasks, and nothing waits to start.
   */
  ghost predicate ClosedInv(s: State) {
    && s.hold == Free && s.timer.None? && s.queue == [] && s.tasks.Keys == s.requests.Keys
    && (forall id :: id in s.runs ==> id in s.tasks && s.tasks[id].state == TaskState.Paused)
    && (forall id :: id in s.tasks ==> s.tasks[id].state != Downloading && s.tasks[id].state != Retrying)
    && (forall id, token :: (id, token) in s.live <==> id in s.runs && s.runs[id] == token)
  }

  ghost predicate Inv(s: State) {
    if s.closed then ClosedInv(s) else OpenInv(s)
  }
}
