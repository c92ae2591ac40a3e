/**
 What each action of the scheduler is for, told by its outcome: what is started, how the timer stands, how a task ends,
 and how it is taken up again.
 */
module SchedulerOutcomes {
  import opened Basics
  import opened Checkpoints
  import opened Recovery
  import opened Sequences
  import opened Tasks
  import opened SchedulerSpec
  import opened SchedulerSafety
  import opened SchedulerTheorems

  // ---------------------------------------------------------------------
  // Slots and the timer

  /** Every slot is taken, or nothing that waits in the queue is due. */
  ghost predicate NobodyWaits(s: State, now: Time) {
    s.maxConcurrent <= |s.runs| || forall id :: id in s.queue ==> !Due(s, now, id)
  }

  /** The timer is armed exactly if a plan waits in the queue, for the earliest one, under the current generation. */
  ghost predicate TimerFits(s: State, now: Time) {
    && (s.timer.Some? <==> exists id :: id in s.queue && Deferred(s, now, id))
    && (s.timer.Some? ==>
          && s.timer.value.generation == s.generation
          && (exists id :: id in s.queue && Deferred(s, now, id) && s.tasks[id].scheduledAt == Some(s.timer.value.at))
          && (forall id :: id in s.queue && Deferred(s, now, id) ==> s.timer.value.at <= s.tasks[id].scheduledAt.value))
  }

  /** The first due tasks of the queue, as many as `limit` leaves slots for. */
  function FirstDue(s: State, now: Time, limit: nat): seq<TaskID> {
    var due := DueOf(s, now, s.queue);
    if |s.runs| < limit then due[..Min(limit - |s.runs|, |due|)] else []
  }

  lemma FillIsRight(s: State, now: Time)
    requires OpenInv(s) && !s.closed
    ensures var after := Fill(s, now);
            && NobodyWaits(after, now) && TimerFits(after, now) && s.generation < after.generation
            && after.maxConcurrent == s.maxConcurrent && after.maxRetries == s.maxRetries && !after.closed
            && forall id :: StartsRun(s, after, id) <==> id in FirstDue(s, now, s.maxConcurrent)
  {
    FillConservesWork(s, now);
    FillTimer(s, now);
    FillStartsFirstDue(s, now);
    FillEffect(s, now);
    FillSplitsQueue(s, now);
    hide Fill, FillLeaves, FillStarts, RetriesOK;
    StartedAre(s, Fill(s, now), FillStarts(s, now), FillLeaves(s, now));
    assert FillStarts(s, now) == FirstDue(s, now, s.maxConcurrent);
  }

  lemma StartedAre(s: State, after: State, starts: seq<TaskID>, leaves: seq<TaskID>)
    requires OpenInv(s) && Filled(s, after, starts, leaves) && forall id :: id in starts ==> id in s.queue
    ensures forall id :: StartsRun(s, after, id) <==> id in starts
  {
    forall id ensures StartsRun(s, after, id) <==> id in starts {
      assert id in Members(starts) <==> id in starts;
      assert id in starts ==> IsQueued(s, id);
    }
  }

  lemma FillTimer(s: State, now: Time)
    requires !s.closed
    ensures TimerFits(Fill(s, now), now)
  {
    var started := StartAll(s.(queue := FillLeaves(s, now)), FillStarts(s, now));
    StartAllFrame(s.(queue := FillLeaves(s, now)), FillStarts(s, now));
    TimerIsEarliestPlan(started, now);
  }

  lemma SameFirstDue(s: State, t: State, now: Time, limit: nat)
    requires t.tasks == s.tasks && t.requests == s.requests && t.queue == s.queue && t.runs == s.runs
    ensures FirstDue(t, now, limit) == FirstDue(s, now, limit)
  {
    FilterSame(s.queue, id => Due(s, now, id), id => Due(t, now, id));
  }

  /**
   A wake-up of the current timer, or new settings: exactly the first due tasks are started, as many as the limit in
   force leaves slots for; afterwards nobody waits for a slot that is free, and a newer timer stands at the earliest
   plan left.
   */
  lemma WakesAndSettingsFill(s: State, action: Action, now: Time)
    requires OpenInv(s) && !s.closed
    requires action.ApplySettings? || action == Wake(s.generation)
    ensures Next(s, action, now).Some?
    ensures var after := Next(s, action, now).value;
            var limit := if action.ApplySettings? then action.maxConcurrent else s.maxConcurrent;
            && (forall id :: StartsRun(s, after, id) <==> id in FirstDue(s, now, limit))
            && after.maxConcurrent == limit && NobodyWaits(after, now)
            && after.maxRetries == (if action.ApplySettings? then action.maxRetries else s.maxRetries)
            && s.generation < after.generation && TimerFits(after, now)
  {
    var ready := Update(s, action, now).value.state;
    UpdateKeeps(s, action, now);
    SameFirstDue(s, ready, now, ready.maxConcurrent);
    hide OpenInv, Fill, NobodyWaits, TimerFits, FirstDue;
    FillIsRight(ready, now);
    assert forall id :: StartsRun(s, Fill(ready, now), id) <==> StartsRun(ready, Fill(ready, now), id);
  }

  /** The action may make a task due or a slot free. */
  predicate MakesRoom(s: State, action: Action) {
    match action
    case Create(_, _, saved) => saved
    case Resume(_, _, saved) => saved
    case Retry(_, _, saved) => saved
    case ApplySettings(_, _) => true
    case Wake(generation) => generation == s.generation
    case ExitRun(_, _, _, _) => true
    case RetryDue(id, at) => RetryStillWanted(s, id, at)
    case _ => false
  }

  /** After every action that may make a task due or a slot free, nobody waits for a free slot, and the timer fits. */
  lemma NobodyWaitsForAFreeSlot(s: State, action: Action, now: Time)
    requires OpenInv(s) && !s.closed && Next(s, action, now).Some? && MakesRoom(s, action)
    ensures var after := Next(s, action, now).value; NobodyWaits(after, now) && TimerFits(after, now)
  {
    RoomIsFilled(s, action, now);
    hide OpenInv, Fill, NobodyWaits, TimerFits, Update, MakesRoom;
    UpdateKeeps(s, action, now);
    FillIsRight(Update(s, action, now).value.state, now);
  }

  lemma RoomIsFilled(s: State, action: Action, now: Time)
    requires !s.closed && Next(s, action, now).Some? && MakesRoom(s, action)
    ensures Update(s, action, now).Some? && Update(s, action, now).value.fills
            && !Update(s, action, now).value.state.closed
  {
    hide EndedTask, RetryDelay, PrepareResume, PrepareManualRetry, Without, EarliestPlan;
  }

  // ---------------------------------------------------------------------
  // How a run ends

  /** What a run that ends makes of its task. */
  predicate EndsAs(task: Task, before: Task, ending: Ending, maxRetries: nat) {
    && task.scheduledAt == before.scheduledAt
    && match ending
       case Completes(size) => task.state == Completed && task.downloaded == task.total == size && task.error.None?
       case Interrupts => task.state == Canceled
       case FailsTransiently(_) =>
         if before.retryCount < maxRetries then task.state == Retrying && task.retryCount == before.retryCount + 1
         else task.state == Failed && task.error.Some? && task.error.value.retryable
              && task.downloaded == before.downloaded
       case FailsForGood =>
         task.state == Failed && task.error.Some? && !task.error.value.retryable && task.downloaded == before.downloaded
  }

  /**
   The run of a downloading task leaves: its task ends as it should, its slot is free, and somebody else may have it.
   */
  lemma RunsEnd(s: State, id: TaskID, token: nat, ending: Ending, baseDelay: Delay, now: Time)
    requires OpenInv(s) && !s.closed && (id, token) in s.live && s.tasks[id].state == Downloading
    ensures Next(s, ExitRun(id, token, ending, baseDelay), now).Some?
    ensures var after := Next(s, ExitRun(id, token, ending, baseDelay), now).value;
            && id in after.tasks && EndsAs(after.tasks[id], s.tasks[id], ending, s.maxRetries)
            && id !in after.runs && id !in after.queue && NobodyWaits(after, now)
            && after.hold == s.hold && !after.closed && after.maxRetries == s.maxRetries
            && id in after.requests
            && (!ending.FailsTransiently? || s.maxRetries <= s.tasks[id].retryCount ==>
                  after.requests[id] == s.requests[id].(checkpoint := None))
  {
    var action := ExitRun(id, token, ending, baseDelay);
    var exited := ExitUpdate(s, id, token, ending, baseDelay, now);
    ExitKeeps(s, id, token, ending, baseDelay, now);
    NobodyWaitsForAFreeSlot(s, action, now);
    ExitedIs(s, id, token, ending, baseDelay, now);
    hide Fill, ExitUpdate, OpenInv, NobodyWaits, EndsAs;
    FillLeavesAlone(exited, now, id);
  }

  lemma ExitedIs(s: State, id: TaskID, token: nat, ending: Ending, baseDelay: Delay, now: Time)
    requires OpenInv(s) && (id, token) in s.live && s.tasks[id].state == Downloading
    ensures var exited := ExitUpdate(s, id, token, ending, baseDelay, now);
            && id in exited.tasks && EndsAs(exited.tasks[id], s.tasks[id], ending, s.maxRetries)
            && !IsQueued(exited, id) && id in exited.requests && id !in exited.runs
            && exited.hold == s.hold && exited.closed == s.closed && exited.maxRetries == s.maxRetries
            && (!ending.FailsTransiently? || s.maxRetries <= s.tasks[id].retryCount ==>
                  exited.requests[id] == s.requests[id].(checkpoint := None))
  {
    hide PrepareAutomaticRetry, RetryDelay, QueueOK, RetriesOK;
  }

  /** A fill does nothing to a task that is not queued. */
  lemma FillLeavesAlone(s: State, now: Time, id: TaskID)
    requires OpenInv(s) && !s.closed && id in s.tasks && id in s.requests && !IsQueued(s, id)
    ensures var after := Fill(s, now);
            && id in after.tasks && after.tasks[id] == s.tasks[id] && id in after.requests
            && after.requests[id] == s.requests[id]
            && (id in after.runs <==> id in s.runs) && id !in after.queue
            && after.hold == s.hold && after.closed == s.closed && after.maxRetries == s.maxRetries
  {
    FillEffect(s, now);
    FillSplitsQueue(s, now);
    hide Fill, RetriesOK, RunsOK;
    assert id !in s.queue;
    assert id !in Members(FillStarts(s, now));
  }

  // ---------------------------------------------------------------------
  // Taking a task up again

  /** What a manual retry may keep of the files it finds. */
  function RetryKeeps(request: Request, found: Disk): int {
    if request.validator.Some? && !request.allowSegments && request.checkpoint.None? then WorkSize(found) else 0
  }

  /** The partial file is not larger than the known size, or is not needed. */
  predicate Usable(task: Task, request: Request, found: Disk) {
    found.dest.None? && (request.checkpoint.Some? || request.allowSegments || !(0 < task.total < WorkSize(found)))
  }

  /** A failed task is taken up by hand exactly if its failure was retryable and its files can be used. */
  lemma RetryableTasksAreRetried(s: State, id: TaskID, found: Disk, now: Time)
    requires OpenInv(s) && !s.closed && s.hold == Free && id in s.tasks && s.tasks[id].state == Failed
    ensures Next(s, Action.Retry(id, found, true), now).Some?
            <==> s.tasks[id].error.Some? && s.tasks[id].error.value.retryable
                 && Usable(s.tasks[id], s.requests[id], found)
    ensures Next(s, Action.Retry(id, found, true), now).Some? ==>
              var after := Next(s, Action.Retry(id, found, true), now).value;
              && id in after.tasks && (after.tasks[id].state == Queued || StartsRun(s, after, id))
              && after.tasks[id].downloaded == RetryKeeps(s.requests[id], found) && after.tasks[id].retryCount == 0
              && id in after.requests && after.requests[id].offset == RetryKeeps(s.requests[id], found)
              && TransfersLeft(after, id) + (if StartsRun(s, after, id) then 1 else 0) == s.maxRetries + 1
              && NobodyWaits(after, now)
  {
    var action := Action.Retry(id, found, true);
    hide Fill, OpenInv, Without, NobodyWaits;
    RetryAccepted(s, id, found);
    if Next(s, action, now).Some? {
      UserGivesBudget(s, action, now);
      NobodyWaitsForAFreeSlot(s, action, now);
      RetriedIs(s, id, found, now);
    }
  }

  lemma RetryAccepted(s: State, id: TaskID, found: Disk)
    requires OpenInv(s) && !s.closed && s.hold == Free && id in s.tasks && s.tasks[id].state == Failed
    ensures id in s.requests
    ensures RetryPlan(s, id, found).Some?
            <==> s.tasks[id].error.Some? && s.tasks[id].error.value.retryable
                 && Usable(s.tasks[id], s.requests[id], found)
    ensures RetryPlan(s, id, found).Some? ==>
              var (request, kept) := RetryPlan(s, id, found).value;
              kept == request.offset == RetryKeeps(s.requests[id], found)
  {
  }

  lemma RetriedIs(s: State, id: TaskID, found: Disk, now: Time)
    requires OpenInv(s) && !s.closed && Next(s, Action.Retry(id, found, true), now).Some?
    ensures var (request, kept) := RetryPlan(s, id, found).value;
            var after := Next(s, Action.Retry(id, found, true), now).value;
            && id in after.tasks && (after.tasks[id].state == Queued || StartsRun(s, after, id))
            && after.tasks[id].downloaded == kept && after.tasks[id].retryCount == 0
            && id in after.requests && after.requests[id] == request
  {
    var action := Action.Retry(id, found, true);
    UpdateKeeps(s, action, now);
    var queued := Update(s, action, now).value.state;
    assert IsQueued(queued, id) && queued.runs == s.runs;
    hide Fill, Without, RetryPlan;
    FillStartsOrLeaves(queued, now, id);
  }

  /** A queued task stays queued in a fill, or is started, with the same numbers. */
  lemma FillStartsOrLeaves(s: State, now: Time, id: TaskID)
    requires OpenInv(s) && !s.closed && IsQueued(s, id)
    ensures var after := Fill(s, now);
            && id in after.tasks && id in after.requests && after.requests[id] == s.requests[id]
            && after.tasks[id].downloaded == s.tasks[id].downloaded
            && after.tasks[id].retryCount == s.tasks[id].retryCount
            && (if StartsRun(s, after, id) then after.tasks[id].state == Downloading && id !in s.runs
                else after.tasks[id] == s.tasks[id] && id in after.queue)
  {
    FillEffect(s, now);
    FillSplitsQueue(s, now);
    hide Fill, RetriesOK;
    assert id in s.queue;
    StartedAre(s, Fill(s, now), FillStarts(s, now), FillLeaves(s, now));
    assert id in Members(FillStarts(s, now)) <==> id in FillStarts(s, now);
  }

  /**
   A task the engine gave up after its last transient failure can be taken up by hand, with its whole budget and the
   bytes in its file; one that failed for good, was interrupted, or is complete cannot.
   */
  lemma GivenUpTasksAreRetried(s: State, id: TaskID, token: nat, ending: Ending, baseDelay: Delay, now: Time,
                               found: Disk, later: Time)
    requires OpenInv(s) && !s.closed && s.hold == Free && (id, token) in s.live && s.tasks[id].state == Downloading
    requires s.maxRetries <= s.tasks[id].retryCount
    ensures Next(s, ExitRun(id, token, ending, baseDelay), now).Some?
    ensures var ended := Next(s, ExitRun(id, token, ending, baseDelay), now).value;
            && id in ended.tasks && id in ended.requests
            && (Next(ended, Action.Retry(id, found, true), later).Some?
                <==> ending.FailsTransiently? && Usable(ended.tasks[id], ended.requests[id], found))
            && (Next(ended, Action.Retry(id, found, true), later).Some? ==>
                  var after := Next(ended, Action.Retry(id, found, true), later).value;
                  && id in after.tasks && (after.tasks[id].state == Queued || StartsRun(ended, after, id))
                  && after.tasks[id].downloaded == RetryKeeps(ended.requests[id], found)
                  && TransfersLeft(after, id) + (if StartsRun(ended, after, id) then 1 else 0) == s.maxRetries + 1)
  {
    var action := ExitRun(id, token, ending, baseDelay);
    RunsEnd(s, id, token, ending, baseDelay, now);
    UpdateKeepsInv(s, action, now);
    StepKeeps(s, action, now);
    hide OpenInv, ClosedInv, Next, NobodyWaits, TransfersLeft, StartsRun, Usable;
    var ended := Next(s, action, now).value;
    if ended.tasks[id].state == Failed {
      RetryableTasksAreRetried(ended, id, found, later);
    } else {
      OnlyFailedTasksAreRetried(ended, id, found, later);
    }
  }

  lemma OnlyFailedTasksAreRetried(s: State, id: TaskID, found: Disk, now: Time)
    requires id in s.tasks && s.tasks[id].state != Failed
    ensures Next(s, Action.Retry(id, found, true), now).None?
  {
  }

  /**
   A retry whose moment has come, if it is still wanted, queues its task or starts it at once, and keeps its budget.
   */
  lemma RetriesGetTheirTurn(s: State, id: TaskID, at: Time, now: Time)
    requires OpenInv(s) && !s.closed && id in s.tasks && s.tasks[id].state == Retrying
    requires s.tasks[id].nextRetryAt == Some(at)
    requires at <= now
    ensures Next(s, RetryDue(id, at), now).Some?
    ensures var after := Next(s, RetryDue(id, at), now).value;
            && id in after.tasks && after.tasks[id].retryCount == s.tasks[id].retryCount
            && after.tasks[id].downloaded == s.tasks[id].downloaded
            && (if StartsRun(s, after, id) then after.tasks[id].state == Downloading
                else after.tasks[id].state == Queued && id in after.queue && after.tasks[id].nextRetryAt.None?)
            && NobodyWaits(after, now)
  {
    var action := RetryDue(id, at);
    NobodyWaitsForAFreeSlot(s, action, now);
    UpdateKeeps(s, action, now);
    var queued := Update(s, action, now).value.state;
    assert IsQueued(queued, id) && queued.runs == s.runs;
    hide Fill, Without, NobodyWaits;
    FillStartsOrLeaves(queued, now, id);
  }

  // ---------------------------------------------------------------------
  // Taking a task out

  /** Nothing else happens to any other task. */
  predicate OthersAlone(s: State, after: State, id: TaskID) {
    && after.tasks.Keys == s.tasks.Keys
    && forall other :: other in s.tasks && other != id ==> after.tasks[other] == s.tasks[other]
  }

  /** The timer after a task left the queue. */
  lemma TimerWithout(s: State, id: TaskID, after: State, now: Time)
    requires !s.closed && id in s.tasks && after.queue == Without(s.queue, id) && OthersAlone(s, after, id)
    requires var refreshed := RefreshTimer(s.(queue := Without(s.queue, id)), now);
             after.timer == refreshed.timer && after.generation == refreshed.generation
    ensures TimerFits(after, now) && id !in after.queue
    ensures forall other :: other != id ==> (other in after.queue <==> other in s.queue)
  {
    FilterFacts(s.queue, other => other != id);
    var rest := s.(queue := Without(s.queue, id));
    TimerIsEarliestPlan(rest, now);
    hide Without, EarliestPlan;
    SameTimer(RefreshTimer(rest, now), after, now);
  }

  lemma SameTimer(s: State, t: State, now: Time)
    requires TimerFits(s, now) && t.timer == s.timer && t.generation == s.generation && t.queue == s.queue
    requires forall id :: id in s.queue ==> (id in s.tasks <==> id in t.tasks)
    requires forall id :: id in s.queue && id in s.tasks ==> t.tasks[id] == s.tasks[id]
    ensures TimerFits(t, now)
  {
    assert forall id :: id in s.queue ==> Deferred(s, now, id) == Deferred(t, now, id);
  }

  /**
   A task that is under way can be paused; it leaves the queue, keeps its numbers, and the timer fits what is left.
   */
  lemma PauseTakesOut(s: State, id: TaskID, now: Time)
    requires OpenInv(s) && !s.closed && s.hold == Free
    ensures Next(s, Action.Pause(id), now).Some? <==> id in s.tasks && IsActiveState(s.tasks[id].state)
    ensures Next(s, Action.Pause(id), now).Some? ==>
              var after := Next(s, Action.Pause(id), now).value;
              && after.tasks[id] == s.tasks[id].(state := TaskState.Paused, nextRetryAt := None)
              && id !in after.queue && OthersAlone(s, after, id) && after.runs == s.runs && after.requests == s.requests
              && after.hold == (if id in s.runs then PauseHold(id) else Free) && TimerFits(after, now)
              && forall other :: other != id ==> (other in after.queue <==> other in s.queue)
  {
    hide Without, EarliestPlan, TimerFits, QueueOK, RetriesOK;
    if Next(s, Action.Pause(id), now).Some? {
      TimerWithout(s, id, Next(s, Action.Pause(id), now).value, now);
    }
  }

  /**
   Whatever is not over can be canceled; it leaves the queue, forgets its checkpoint, and the timer fits what is left.
   */
  lemma CancelTakesOut(s: State, id: TaskID, now: Time)
    requires OpenInv(s) && !s.closed && s.hold == Free
    ensures Next(s, Action.Cancel(id), now).Some? <==> id in s.tasks && !IsTerminalState(s.tasks[id].state)
    ensures Next(s, Action.Cancel(id), now).Some? ==>
              var after := Next(s, Action.Cancel(id), now).value;
              && after.tasks[id] == s.tasks[id].(state := Canceled, nextRetryAt := None)
              && id !in after.queue && OthersAlone(s, after, id) && after.runs == s.runs
              && after.hold == CancelHold(id) && TimerFits(after, now)
              && after.requests == s.requests[id := s.requests[id].(checkpoint := None)]
              && forall other :: other != id ==> (other in after.queue <==> other in s.queue)
  {
    hide Without, EarliestPlan, TimerFits, QueueOK, RetriesOK;
    if Next(s, Action.Cancel(id), now).Some? {
      TimerWithout(s, id, Next(s, Action.Cancel(id), now).value, now);
    }
  }

  /** A shutdown pauses what is under way, with its numbers, except plans for the future nothing was done for. */
  lemma CloseKeepsPlans(s: State, now: Time)
    requires OpenInv(s) && !s.closed && s.hold == Free
    ensures Next(s, Action.Close, now).Some?
    ensures var after := Next(s, Action.Close, now).value;
            && after.closed && after.queue == [] && after.timer.None? && after.tasks.Keys == s.tasks.Keys
            && after.runs == s.runs
            && forall id :: id in s.tasks ==>
                 var task := s.tasks[id];
                 after.tasks[id] ==
                   if !IsActiveState(task.state)
                     || (task.state == Queued && InFuture(task, now) && task.downloaded == 0) then task
                   else task.(state := TaskState.Paused, nextRetryAt := None)
  {
  }

  /** Exactly what is over can be deleted; it is gone then, and nothing else has changed. */
  lemma DeletionsTakeOut(s: State, id: TaskID, removed: bool, now: Time)
    requires OpenInv(s) && !s.closed && s.hold == Free
    ensures Next(s, Action.Delete(id, removed), now).Some?
            <==> && id in s.tasks
                 && var state := s.tasks[id].state; state == Completed || state == Failed || state == Canceled
    ensures Next(s, Action.Delete(id, removed), now).Some? ==>
              var after := Next(s, Action.Delete(id, removed), now).value;
              if removed then
                && id !in after.tasks && id !in after.requests && after.queue == s.queue && after.runs == s.runs
                && after.timer == s.timer
                && (forall other :: other in after.tasks <==> other in s.tasks && other != id)
                && forall other :: other in after.tasks ==>
                     other in after.requests && other in s.requests
                     && after.tasks[other] == s.tasks[other] && after.requests[other] == s.requests[other]
              else after == s
  {
    if id in s.tasks && IsTerminalState(s.tasks[id].state) {
      assert id !in s.queue;
      FilterAll(s.queue, other => other != id);
    }
  }

  /** A run whose task was stopped meanwhile only gives its slot free. */
  lemma StoppedRunsLeave(s: State, id: TaskID, token: nat, ending: Ending, baseDelay: Delay, now: Time)
    requires OpenInv(s) && !s.closed && (id, token) in s.live && s.tasks[id].state != Downloading
    ensures Next(s, ExitRun(id, token, ending, baseDelay), now).Some?
    ensures var after := Next(s, ExitRun(id, token, ending, baseDelay), now).value;
            && id in after.tasks && after.tasks[id] == s.tasks[id] && id !in after.runs
            && id in after.requests && after.requests[id] == s.requests[id]
            && after.hold == s.hold && NobodyWaits(after, now) && TimerFits(after, now)
  {
    var action := ExitRun(id, token, ending, baseDelay);
    var exited := ExitUpdate(s, id, token, ending, baseDelay, now);
    NobodyWaitsForAFreeSlot(s, action, now);
    UpdateKeeps(s, action, now);
    assert !IsQueued(exited, id);
    hide Fill, NobodyWaits, TimerFits;
    FillLeavesAlone(exited, now, id);
  }

  // ---------------------------------------------------------------------
  // What comes too late or cannot be stored

  /** What the store refuses is not done: a creation and a retry leave no trace, a resume leaves the task paused. */
  lemma RefusedSavesAreUndone(s: State, id: TaskID, input: NewDownload, found: Disk, now: Time)
    ensures Next(s, Create(id, input, false), now).Some? ==> Next(s, Create(id, input, false), now) == Some(s)
    ensures Next(s, Action.Retry(id, found, false), now).Some? ==>
              Next(s, Action.Retry(id, found, false), now) == Some(s)
    ensures Next(s, Action.Resume(id, found, false), now).Some? ==>
              var after := Next(s, Action.Resume(id, found, false), now).value;
              && id in s.tasks && OthersAlone(s, after, id) && after.queue == s.queue && after.runs == s.runs
              && after.tasks[id].state == TaskState.Paused && after.tasks[id].downloaded == s.tasks[id].downloaded
              && after.tasks[id].total == s.tasks[id].total
  {
  }

  /** A retry that is not wanted any more changes nothing but that its goroutine is gone. */
  lemma StaleRetriesAreIgnored(s: State, id: TaskID, at: Time, now: Time)
    requires (id, at) in s.waiters && at <= now
    requires id in s.tasks ==> s.tasks[id].state != Retrying || s.tasks[id].nextRetryAt != Some(at)
    ensures Next(s, RetryDue(id, at), now) == Some(s.(waiters := s.waiters - multiset{(id, at)}))
  {
  }

  // ---------------------------------------------------------------------
  // Beginning

  /** A creation is accepted exactly for a new task of a sensible size whose plan, if any, lies ahead. */
  lemma CreatedTasksGetTheirTurn(s: State, id: TaskID, input: NewDownload, now: Time)
    requires OpenInv(s) && !s.closed && s.hold == Free && id !in s.tasks
    ensures Next(s, Create(id, input, true), now).Some?
            <==> -1 <= input.expectedSize && (input.scheduledAt.Some? ==> now < input.scheduledAt.value)
    ensures Next(s, Create(id, input, true), now).Some? ==>
              var after := Next(s, Create(id, input, true), now).value;
              && id in after.tasks && after.tasks[id].scheduledAt == input.scheduledAt
              && after.tasks[id].downloaded == 0
              && after.tasks[id].total == (if input.expectedSize <= 0 then -1 else input.expectedSize)
              && (if StartsRun(s, after, id) then after.tasks[id].state == Downloading && input.scheduledAt.None?
                  else after.tasks[id].state == Queued && id in after.queue)
              && NobodyWaits(after, now) && TimerFits(after, now)
  {
    var action := Create(id, input, true);
    if Next(s, action, now).Some? {
      NobodyWaitsForAFreeSlot(s, action, now);
      UpdateKeeps(s, action, now);
      var queued := Update(s, action, now).value.state;
      assert IsQueued(queued, id) && queued.runs == s.runs;
      hide Without, NobodyWaits, TimerFits;
      CreatedIs(s, queued, id, input, now);
    }
  }

  lemma CreatedIs(s: State, queued: State, id: TaskID, input: NewDownload, now: Time)
    requires OpenInv(queued) && !queued.closed && IsQueued(queued, id) && queued.runs == s.runs
    requires queued.tasks[id] == NewTask(input.expectedSize, input.scheduledAt)
    requires input.scheduledAt.Some? ==> now < input.scheduledAt.value
    ensures var after := Fill(queued, now);
            && id in after.tasks && after.tasks[id].scheduledAt == input.scheduledAt && after.tasks[id].downloaded == 0
            && after.tasks[id].total == (if input.expectedSize <= 0 then -1 else input.expectedSize)
            && (if StartsRun(s, after, id) then after.tasks[id].state == Downloading && input.scheduledAt.None?
                else after.tasks[id].state == Queued && id in after.queue)
  {
    FillEffect(queued, now);
    FillSplitsQueue(queued, now);
    FillLosesNothing(queued, now);
    hide Fill, RetriesOK;
    assert id in queued.queue;
    StartedAre(queued, Fill(queued, now), FillStarts(queued, now), FillLeaves(queued, now));
    assert id in Members(FillStarts(queued, now)) <==> id in FillStarts(queued, now);
  }

  /**
   A paused task is resumed exactly if its file holds what it counts, and it has a validator unless it has nothing.
   */
  lemma PausedTasksAreResumed(s: State, id: TaskID, found: Disk, now: Time)
    requires OpenInv(s) && !s.closed && s.hold == Free && id in s.tasks && s.tasks[id].state == TaskState.Paused
    ensures id in s.requests
    ensures Next(s, Action.Resume(id, found, true), now).Some?
            <==> && found.dest.None? && Holds(s.tasks[id], s.requests[id], found)
                 && (s.tasks[id].downloaded <= 0 || s.requests[id].validator.Some?)
    ensures Next(s, Action.Resume(id, found, true), now).Some? ==>
              var after := Next(s, Action.Resume(id, found, true), now).value;
              && id in after.tasks && (after.tasks[id].state == Queued || StartsRun(s, after, id))
              && after.tasks[id].downloaded == s.tasks[id].downloaded && after.tasks[id].retryCount == 0
              && id in after.requests && after.requests[id].offset == s.tasks[id].downloaded
              && after.requests[id].checkpoint == s.requests[id].checkpoint && NobodyWaits(after, now)
  {
    var action := Action.Resume(id, found, true);
    ResumeAccepted(s, id, found);
    hide Fill, OpenInv, Without, NobodyWaits, Holds, PrepareResume;
    if Next(s, action, now).Some? {
      NobodyWaitsForAFreeSlot(s, action, now);
      ResumedIs(s, id, found, now);
    }
  }

  lemma ResumeAccepted(s: State, id: TaskID, found: Disk)
    requires OpenInv(s) && !s.closed && s.hold == Free && id in s.tasks && s.tasks[id].state == TaskState.Paused
    ensures id in s.requests
    ensures ResumePlan(s, id, found).Some?
            <==> && found.dest.None? && Holds(s.tasks[id], s.requests[id], found)
                 && (s.tasks[id].downloaded <= 0 || s.requests[id].validator.Some?)
    ensures ResumePlan(s, id, found).Some? ==>
              var request := ResumePlan(s, id, found).value;
              request.offset == s.tasks[id].downloaded && request.checkpoint == s.requests[id].checkpoint
  {
    hide ValidCheckpoint, Downloaded;
  }

  lemma ResumedIs(s: State, id: TaskID, found: Disk, now: Time)
    requires OpenInv(s) && !s.closed && Next(s, Action.Resume(id, found, true), now).Some?
    ensures var after := Next(s, Action.Resume(id, found, true), now).value;
            && id in after.tasks && (after.tasks[id].state == Queued || StartsRun(s, after, id))
            && after.tasks[id].downloaded == s.tasks[id].downloaded && after.tasks[id].retryCount == 0
            && id in after.requests && after.requests[id] == ResumePlan(s, id, found).value
  {
    var action := Action.Resume(id, found, true);
    UpdateKeeps(s, action, now);
    var queued := Update(s, action, now).value.state;
    assert IsQueued(queued, id) && queued.runs == s.runs;
    hide Fill, Without, ResumePlan;
    FillStartsOrLeaves(queued, now, id);
  }

  /** The file holds exactly the bytes the task counts. */
  predicate Holds(task: Task, request: Request, found: Disk) {
    match request.checkpoint
    case Some(checkpoint) =>
      && ValidCheckpoint(checkpoint, task.total) && found.work.Some? && |found.work.value| == checkpoint.total
      && task.downloaded == Downloaded(checkpoint)
    case None =>
      if request.allowSegments then found.work.None? && task.downloaded == 0
      else task.downloaded == WorkSize(found) && !(0 < task.total < WorkSize(found))
  }

  /** After a start on a store nothing runs, and the timer stands at the earliest plan that was kept. */
  lemma RestoredPlansAreArmed(maxConcurrent: nat, maxRetries: nat, records: seq<Record>, now: Time)
    requires Restored(maxConcurrent, maxRetries, records, now).Some?
    ensures var s := Restored(maxConcurrent, maxRetries, records, now).value;
            && s.runs == map[] && s.live == {} && TimerFits(s, now) && Inv(s) && !s.closed
            && s.maxConcurrent == maxConcurrent && s.maxRetries == maxRetries
  {
    var start := Initial(maxConcurrent, maxRetries);
    var restored := RestoreAll(start, records, now).value;
    InitialIsOpen(maxConcurrent, maxRetries);
    RestoreAllKeeps(start, records, now);
    RestoreAllFrame(start, records, now);
    RefreshKeeps(restored, now);
    TimerIsEarliestPlan(restored, now);
  }

  lemma {:induction false} RestoreAllFrame(s: State, records: seq<Record>, now: Time)
    requires RestoreAll(s, records, now).Some?
    ensures var after := RestoreAll(s, records, now).value;
            after.live == s.live && after.maxConcurrent == s.maxConcurrent && after.maxRetries == s.maxRetries
  {
    if records != [] {
      hide Reconcile, Without;
      RestoreAllFrame(s, records[..|records| - 1], now);
    }
  }
}
