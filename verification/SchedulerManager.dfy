/**
 The manager as an object whose methods update its maps, its queue and its
 timer in place. Each method is one locked section; a method that takes the
 operation lock requires that no other operation holds it.
 */
module SchedulerManager {
  import opened Basics
  import opened Checkpoints
  import opened Recovery
  import opened Sequences
  import opened Tasks
  import opened SchedulerSpec
  import opened SchedulerSafety
  import opened SchedulerTheorems

  // ---------------------------------------------------------------------
  // The loops

  /** Removing one occurrence does not change what remains when all are removed. */
  lemma DroppingChangesNothing(queue: seq<TaskID>, index: nat, id: TaskID)
    requires index < |queue| && queue[index] == id
    ensures Without(queue[..index] + queue[index + 1..], id) == Without(queue, id)
  {
    FilterAppend(queue[..index], queue[index + 1..], other => other != id);
    FilterAppend(queue[..index], queue[index..], other => other != id);
    assert queue[..index] + queue[index..] == queue;
  }

  /** One iteration of the fill loop. */
  function PopOne(v: State, now: Time): State
    requires v.queue != []
  {
    var id := v.queue[0];
    var popped := v.(queue := v.queue[1..]);
    if Deferred(v, now, id) then popped.(queue := popped.queue + [id])
    else if Due(v, now, id) then StartOne(popped, id)
    else popped
  }

  /** The fill loop started in `s` and has looked at the first `k` entries of its queue. */
  ghost predicate Filling(s: State, v: State, now: Time, k: nat)
    requires k <= |s.queue|
  {
    v == StartAll(s, DueOf(s, now, s.queue[..k])).(queue := s.queue[k..] + DeferredOf(s, now, s.queue[..k]))
  }

  lemma StartedSoFar(s: State, v: State, now: Time, k: nat)
    requires FillReady(s) && k <= |s.queue| && Filling(s, v, now, k)
    ensures StartedFrom(s, v.(queue := s.queue), Members(DueOf(s, now, s.queue[..k])))
    ensures forall id :: id in DueOf(s, now, s.queue[..k]) ==> id in s.queue[..k]
    ensures k < |s.queue| ==> s.queue[k] !in s.queue[..k] && s.queue[k] in s.queue
  {
    var due := DueOf(s, now, s.queue[..k]);
    NoDuplicatesSplit(s.queue, k);
    FilterFacts(s.queue[..k], id => Due(s, now, id));
    FilterNoDuplicates(s.queue[..k], id => Due(s, now, id));
    StartAllFacts(s, due);
    StartedFromFrame(s, s, StartAll(s, due), v.(queue := s.queue), Members(due));
    if k < |s.queue| {
      assert s.queue[k] in s.queue[k..];
    }
  }

  lemma FilterExtends(s: State, now: Time, k: nat)
    requires k < |s.queue|
    ensures DueOf(s, now, s.queue[..k + 1])
            == DueOf(s, now, s.queue[..k]) + if Due(s, now, s.queue[k]) then [s.queue[k]] else []
    ensures DeferredOf(s, now, s.queue[..k + 1])
            == DeferredOf(s, now, s.queue[..k]) + if Deferred(s, now, s.queue[k]) then [s.queue[k]] else []
  {
    assert s.queue[..k + 1] == s.queue[..k] + [s.queue[k]];
    FilterAppend(s.queue[..k], [s.queue[k]], id => Due(s, now, id));
    FilterAppend(s.queue[..k], [s.queue[k]], id => Deferred(s, now, id));
  }

  /** Before its first iteration the loop has looked at nothing. */
  lemma FillingStarts(s: State, now: Time)
    requires Inv(s) && !s.closed
    ensures FillReady(s) && Filling(s, s, now, 0)
    ensures PopCount(s, now, s.queue, FreeSlots(s)) == PopCount(s, now, s.queue[0..], FreeSlots(s))
  {
    assert s.queue[0..] == s.queue && s.queue[..0] == [];
  }

  /** One iteration looks at one more entry and uses a slot exactly for a due task. */
  lemma PopOneFills(s: State, v: State, now: Time, k: nat)
    requires FillReady(s) && k < |s.queue| && Filling(s, v, now, k)
    ensures v.queue != [] && Filling(s, PopOne(v, now), now, k + 1)
    ensures 0 < FreeSlots(v) ==>
              PopCount(s, now, s.queue[k..], FreeSlots(v))
                == 1 + PopCount(s, now, s.queue[k + 1..], FreeSlots(PopOne(v, now)))
  {
    hide Filling, FillReady, StartedFrom, Due, Deferred, FreeSlots, PopOne;
    StartedSoFar(s, v, now, k);
    SameDueness(s, v, now, Members(DueOf(s, now, s.queue[..k])), s.queue[k]);
    NextInQueue(s, v, now, k);
    PopOneExtends(s, v, now, k);
    PopOneTakesSlot(v, now);
    assert s.queue[k..][1..] == s.queue[k + 1..];
  }

  lemma NextInQueue(s: State, v: State, now: Time, k: nat)
    requires k < |s.queue| && Filling(s, v, now, k)
    ensures v.queue != [] && v.queue[0] == s.queue[k]
            && v.queue[1..] == s.queue[k + 1..] + DeferredOf(s, now, s.queue[..k])
  {
  }

  lemma PopOneTakesSlot(v: State, now: Time)
    requires v.queue != [] && (Due(v, now, v.queue[0]) ==> v.queue[0] !in v.runs)
    ensures 0 < FreeSlots(v) ==>
              FreeSlots(PopOne(v, now)) == if Due(v, now, v.queue[0]) then FreeSlots(v) - 1 else FreeSlots(v)
  {
    if Due(v, now, v.queue[0]) {
      NewKeyCounts(v.runs, v.queue[0], v.nextRun);
    }
  }

  lemma PopOneExtends(s: State, v: State, now: Time, k: nat)
    requires k < |s.queue| && Filling(s, v, now, k) && v.queue != []
    requires v.queue[0] == s.queue[k] && v.queue[1..] == s.queue[k + 1..] + DeferredOf(s, now, s.queue[..k])
    requires Due(v, now, s.queue[k]) == Due(s, now, s.queue[k])
    requires Deferred(v, now, s.queue[k]) == Deferred(s, now, s.queue[k])
    ensures Filling(s, PopOne(v, now), now, k + 1)
  {
    hide StartAll;
    FilterExtends(s, now, k);
    StartAllExtends(s, DueOf(s, now, s.queue[..k]), s.queue[k]);
    var rest, deferred := s.queue[k + 1..], DeferredOf(s, now, s.queue[..k]);
    assert rest + deferred + [s.queue[k]] == rest + (deferred + [s.queue[k]]);
    assert rest + (deferred + []) == rest + deferred;
    assert DueOf(s, now, s.queue[..k]) + [] == DueOf(s, now, s.queue[..k]);
  }

  /** A task that was not started is as due, or as deferred, as before. */
  lemma SameDueness(s: State, v: State, now: Time, started: set<TaskID>, id: TaskID)
    requires FillReady(s) && StartedFrom(s, v.(queue := s.queue), started) && id !in started && id in s.queue
    ensures Due(v, now, id) == Due(s, now, id) && Deferred(v, now, id) == Deferred(s, now, id)
    ensures Due(s, now, id) ==> id !in v.runs
  {
  }

  lemma StartAllExtends(s: State, ids: seq<TaskID>, id: TaskID)
    ensures StartAll(s, ids + [id]) == StartOne(StartAll(s, ids), id)
  {
    assert (ids + [id])[..|ids|] == ids;
  }

  lemma {:induction false} StartAllAnyQueue(s: State, queue: seq<TaskID>, ids: seq<TaskID>)
    ensures StartAll(s.(queue := queue), ids) == StartAll(s, ids).(queue := queue)
  {
    if ids != [] {
      StartAllAnyQueue(s, queue, ids[..|ids| - 1]);
    }
  }

  /** A loop that stops when the slots or the queue are used up has filled. */
  lemma FilledUp(s: State, v: State, now: Time, k: nat)
    requires !s.closed && k <= |s.queue| && Filling(s, v, now, k)
    requires PopCount(s, now, s.queue, FreeSlots(s)) == k + PopCount(s, now, s.queue[k..], FreeSlots(v))
    requires FreeSlots(v) == 0 || v.queue == [] || k == |s.queue|
    ensures RefreshTimer(v, now) == Fill(s, now)
  {
    assert v.queue == s.queue[k..] + DeferredOf(s, now, s.queue[..k]);
    assert PopCount(s, now, s.queue[k..], FreeSlots(v)) == 0;
    StartAllAnyQueue(s, FillLeaves(s, now), FillStarts(s, now));
  }

  /** The answer of an operation and the state it leaves are those of the action. */
  ghost predicate Performs(before: State, after: State, action: Action, now: Time, accepted: bool) {
    var next := Next(before, action, now);
    accepted == next.Some? && after == (if accepted then next.value else before)
  }

  /** What each action comes to, one by one. */
  lemma CreateUnfolds(s: State, id: TaskID, input: NewDownload, saved: bool, now: Time)
    requires Inv(s)
    ensures Next(s, Action.Create(id, input, saved), now)
            == if !MayCreate(s, id, input, now) then None
               else if !saved then Some(s) else Some(Fill(CreateUpdate(s, id, input), now))
    ensures MayCreate(s, id, input, now) ==> Inv(CreateUpdate(s, id, input)) && s.tasks.Keys == s.requests.Keys
  {
    if MayCreate(s, id, input, now) {
      UpdateKeeps(s, Action.Create(id, input, true), now);
    }
  }

  lemma PauseUnfolds(s: State, id: TaskID, now: Time)
    requires Inv(s)
    ensures Next(s, Action.Pause(id), now) == if MayPause(s, id) then Some(PauseUpdate(s, id, now)) else None
    ensures MayPause(s, id) ==> Inv(PauseUpdate(s, id, now))
  {
    if MayPause(s, id) {
      UpdateKeeps(s, Action.Pause(id), now);
    }
  }

  lemma FinishPauseUnfolds(s: State, id: TaskID, disk: Disk, now: Time)
    requires Inv(s) && s.hold == PauseHold(id) && id !in s.runs && id in s.tasks && id in s.requests
    ensures var after := s.(hold := Free, tasks := Reconciled(s, id, disk));
            Next(s, Action.FinishPause(id, disk), now) == Some(after) && Inv(after)
  {
    StepKeeps(s, Action.FinishPause(id, disk), now);
  }

  lemma ResumeUnfolds(s: State, id: TaskID, disk: Disk, saved: bool, now: Time)
    requires Inv(s)
    ensures var plan := ResumePlan(s, id, disk);
            && Next(s, Action.Resume(id, disk, saved), now)
               == (if plan.None? then None
                   else if !saved then Some(UnsavedResume(s, id, plan.value))
                   else Some(Fill(RequeueUpdate(s, id, s.tasks[id].downloaded, plan.value), now)))
            && (plan.Some? ==>
                  && Inv(RequeueUpdate(s, id, s.tasks[id].downloaded, plan.value))
                  && Inv(UnsavedResume(s, id, plan.value)))
  {
    if ResumePlan(s, id, disk).Some? {
      UpdateKeeps(s, Action.Resume(id, disk, true), now);
      UpdateKeeps(s, Action.Resume(id, disk, false), now);
    }
  }

  lemma ManualRetryUnfolds(s: State, id: TaskID, disk: Disk, saved: bool, now: Time)
    requires Inv(s)
    ensures var plan := RetryPlan(s, id, disk);
            && Next(s, Action.Retry(id, disk, saved), now)
               == (if plan.None? then None
                   else if !saved then Some(s)
                   else Some(Fill(RequeueUpdate(s, id, plan.value.1, plan.value.0), now)))
            && (plan.Some? ==> Inv(RequeueUpdate(s, id, plan.value.1, plan.value.0)))
  {
    if RetryPlan(s, id, disk).Some? {
      UpdateKeeps(s, Action.Retry(id, disk, true), now);
    }
  }

  lemma CancelUnfolds(s: State, id: TaskID, now: Time)
    requires Inv(s)
    ensures Next(s, Action.Cancel(id), now) == if MayCancel(s, id) then Some(CancelUpdate(s, id, now)) else None
    ensures MayCancel(s, id) ==> Inv(CancelUpdate(s, id, now))
  {
    if MayCancel(s, id) {
      UpdateKeeps(s, Action.Cancel(id), now);
    }
  }

  lemma DeleteUnfolds(s: State, id: TaskID, removed: bool, now: Time)
    requires Inv(s)
    ensures Next(s, Action.Delete(id, removed), now)
            == if !MayDelete(s, id) then None else Some(if removed then DeleteUpdate(s, id) else s)
    ensures MayDelete(s, id) ==> Inv(DeleteUpdate(s, id))
  {
    if MayDelete(s, id) {
      UpdateKeeps(s, Action.Delete(id, true), now);
    }
  }

  lemma ReportUnfolds(s: State, id: TaskID, token: nat, downloaded: int, total: int,
                      checkpoint: Option<TransferCheckpoint>, now: Time)
    requires Inv(s) && (id, token) in s.live
    ensures var after := ProgressUpdate(s, id, token, downloaded, total, checkpoint);
            Next(s, Progress(id, token, downloaded, total, checkpoint), now) == Some(after) && Inv(after)
  {
    StepKeeps(s, Progress(id, token, downloaded, total, checkpoint), now);
  }

  lemma ExitUnfolds(s: State, id: TaskID, token: nat, ending: Ending, baseDelay: Delay, now: Time)
    requires Inv(s) && (id, token) in s.live
    ensures var after := ExitUpdate(s, id, token, ending, baseDelay, now);
            Next(s, Action.ExitRun(id, token, ending, baseDelay), now) == Some(Fill(after, now)) && Inv(after)
  {
    if !s.closed {
      UpdateKeeps(s, Action.ExitRun(id, token, ending, baseDelay), now);
    }
  }

  lemma RetryUnfolds(s: State, id: TaskID, disk: Disk, baseDelay: Delay, now: Time)
    requires id in s.tasks && id in s.requests && s.tasks[id].retryCount < s.maxRetries
    ensures var retryAt := now + RetryDelay(baseDelay, s.tasks[id].retryCount);
            var request := PrepareAutomaticRetry(s.requests[id], disk).0;
            EndUpdate(s, id, FailsTransiently(disk), baseDelay, now)
            == s.(tasks := s.tasks[id := RetryingTask(s.tasks[id], request.offset, retryAt)],
                  requests := s.requests[id := request],
                  waiters := s.waiters + multiset{(id, retryAt)})
  {
  }

  lemma RetryDueUnfolds(s: State, id: TaskID, at: Time, now: Time)
    requires Inv(s) && (id, at) in s.waiters && at <= now
    ensures var after := RetryDueUpdate(s, id, at);
            && Next(s, RetryDue(id, at), now) == Some(if RetryStillWanted(s, id, at) then Fill(after, now) else after)
            && Inv(after)
  {
    if !s.closed {
      UpdateKeeps(s, RetryDue(id, at), now);
    }
  }

  lemma CloseUnfolds(s: State, now: Time)
    requires Inv(s) && Idle(s)
    ensures Next(s, Action.Close, now) == Some(CloseUpdate(s, now)) && Inv(CloseUpdate(s, now))
  {
    hide OpenInv, ClosedInv;
    UpdateKeeps(s, Action.Close, now);
  }

  lemma FinishCloseUnfolds(s: State, disks: map<TaskID, Disk>, now: Time)
    requires Inv(s) && s.closed && s.runs == map[]
    ensures Next(s, Action.FinishClose(disks), now) == Some(FinishCloseUpdate(s, disks))
            && Inv(FinishCloseUpdate(s, disks))
  {
    ClosedUpdateKeeps(s, Action.FinishClose(disks), now);
  }

  class Manager {
    var tasks: map<TaskID, Task>
    var requests: map<TaskID, Request>
    var queue: seq<TaskID>
    var runs: map<TaskID, nat>
    var scheduleTimer: Option<Timer>
    var scheduleGeneration: nat
    var nextRun: nat
    var maxConcurrentTasks: nat
    var maxRetries: nat
    var closed: bool
    var sequence: nat
    const retryBaseDelay: Delay
    /** The run goroutines before their exit section, the sleeping retries, and who holds the operation lock. */
    ghost var live: set<(TaskID, nat)>
    ghost var waiters: multiset<(TaskID, Time)>
    ghost var hold: Hold

    ghost function View(): State
      reads this
    {
      State(tasks, requests, queue, runs, live, waiters, scheduleTimer, scheduleGeneration, nextRun,
            maxConcurrentTasks, maxRetries, hold, closed)
    }

    constructor (maxConcurrentTasks: nat, maxRetries: nat, retryBaseDelay: Delay)
      ensures View() == Initial(maxConcurrentTasks, maxRetries) && this.retryBaseDelay == retryBaseDelay
    {
      tasks, requests, queue, runs := map[], map[], [], map[];
      scheduleTimer, scheduleGeneration, nextRun := None, 0, 0;
      this.maxConcurrentTasks, this.maxRetries, this.retryBaseDelay := maxConcurrentTasks, maxRetries, retryBaseDelay;
      closed, sequence := false, 0;
      live, waiters, hold := {}, multiset{}, Free;
    }

    // -------------------------------------------------------------------
    // The queue

    method RemoveFromQueueLocked(id: TaskID)
      modifies this`queue
      ensures queue == Without(old(queue), id)
    {
      var index := 0;
      while index < |queue|
        invariant 0 <= index <= |queue|
        invariant id !in queue[..index]
        invariant Without(queue, id) == Without(old(queue), id)
        decreases |queue| - index
      {
        if queue[index] != id {
          index := index + 1;
        } else {
          DroppingChangesNothing(queue, index, id);
          queue := queue[..index] + queue[index + 1..];
        }
      }
      assert queue[..index] == queue;
      FilterAll(queue, other => other != id);
    }

    method EnqueueLocked(id: TaskID)
      modifies this`queue
      ensures View() == Enqueue(old(View()), id)
    {
      RemoveFromQueueLocked(id);
      queue := queue + [id];
    }

    // -------------------------------------------------------------------
    // The timer and the fill

    method RefreshScheduleTimerLocked(now: Time)
      modifies this`scheduleTimer, this`scheduleGeneration
      ensures View() == RefreshTimer(old(View()), now)
    {
      scheduleGeneration := scheduleGeneration + 1;
      scheduleTimer := None;
      if closed {
        return;
      }
      var earliest: Option<Time> := None;
      for i := 0 to |queue|
        invariant earliest == EarliestPlan(old(View()), now, queue[..i])
      {
        var id := queue[i];
        assert queue[..i + 1][..i] == queue[..i];
        if id !in tasks || tasks[id].state != Queued || !InFuture(tasks[id], now) {
          continue;
        }
        if earliest.None? || tasks[id].scheduledAt.value < earliest.value {
          earliest := tasks[id].scheduledAt;
        }
      }
      assert queue[..|queue|] == queue;
      if earliest.None? {
        return;
      }
      scheduleTimer := Some(Timer(earliest.value, scheduleGeneration));
    }

    method StartRunLocked(id: TaskID)
      requires id in tasks
      modifies this`tasks, this`runs, this`live, this`nextRun
      ensures View() == StartOne(old(View()), id)
    {
      tasks := tasks[id := tasks[id].(state := Downloading, error := None, nextRetryAt := None)];
      runs := runs[id := nextRun];
      live := live + {(id, nextRun)};
      nextRun := nextRun + 1;
    }

    /** Takes the head of the queue: started if it is due, put back at the end if it is planned, else dropped. */
    method TakeFromQueueLocked(now: Time)
      requires queue != []
      modifies this`queue, this`tasks, this`runs, this`live, this`nextRun
      ensures View() == PopOne(old(View()), now)
    {
      var id := queue[0];
      queue := queue[1..];
      if id !in tasks || tasks[id].state != Queued {
        return;
      }
      if InFuture(tasks[id], now) {
        queue := queue + [id];
        return;
      }
      if id !in requests {
        return;
      }
      StartRunLocked(id);
    }

    /** The loop pops queued tasks into free slots; a planned task goes back to the end, once. */
    method FillAvailableSlotsLocked(now: Time)
      requires Inv(View())
      modifies this
      ensures View() == Fill(old(View()), now) && Inv(View())
    {
      if closed {
        return;
      }
      hide Inv, FillReady, Filling, PopCount, Fill;
      ghost var s := View();
      var queuedCount := |queue|;
      ghost var k := 0;
      FillingStarts(s, now);
      while |runs| < maxConcurrentTasks && |queue| > 0 && queuedCount > 0
        invariant k == |s.queue| - queuedCount && 0 <= k <= |s.queue|
        invariant Filling(s, View(), now, k)
        invariant PopCount(s, now, s.queue, FreeSlots(s)) == k + PopCount(s, now, s.queue[k..], FreeSlots(View()))
        decreases queuedCount
      {
        ghost var v := View();
        PopOneFills(s, v, now, k);
        TakeFromQueueLocked(now);
        queuedCount := queuedCount - 1;
        k := k + 1;
      }
      FilledUp(s, View(), now, k);
      RefreshScheduleTimerLocked(now);
      FillKeeps(s, now);
    }

    // -------------------------------------------------------------------
    // The operations

    /** The first task number that is not taken. */
    method NewTaskID() returns (id: TaskID)
      modifies this`sequence
      ensures id !in tasks
    {
      sequence := sequence + 1;
      id := sequence;
      while id in tasks
        invariant id == sequence
        decreases set other | other in tasks && id <= other
      {
        ghost var before := set other | other in tasks && id <= other;
        assert id in before;
        sequence := sequence + 1;
        id := sequence;
      }
    }

    method Create(input: NewDownload, saved: bool, now: Time) returns (id: TaskID, accepted: bool)
      requires Inv(View()) && hold == Free
      modifies this
      ensures id !in old(tasks)
      ensures Performs(old(View()), View(), Action.Create(id, input, saved), now, accepted) && Inv(View())
    {
      hide Inv, Next, Fill, EarliestPlan, Without;
      id := NewTaskID();
      CreateUnfolds(View(), id, input, saved, now);
      if closed || input.expectedSize < -1 || (input.scheduledAt.Some? && input.scheduledAt.value <= now) {
        return id, false;
      }
      accepted := true;
      ghost var s := View();
      CreateUnfolds(s, id, input, saved, now);
      var task := NewTask(input.expectedSize, input.scheduledAt);
      tasks := tasks[id := task];
      requests := requests[id := NewRequest(task, input.acceptRanges, input.validator)];
      if !saved {
        tasks := tasks - {id};
        requests := requests - {id};
        assert tasks == s.tasks && requests == s.requests;
        return;
      }
      EnqueueLocked(id);
      FillAvailableSlotsLocked(now);
    }

    method Pause(id: TaskID, now: Time) returns (accepted: bool)
      requires Inv(View()) && hold == Free
      modifies this
      ensures Performs(old(View()), View(), Action.Pause(id), now, accepted) && Inv(View())
    {
      hide Inv, Next, Fill, EarliestPlan, Without;
      PauseUnfolds(View(), id, now);
      if closed || id !in tasks || !IsActiveState(tasks[id].state) {
        return false;
      }
      if tasks[id].state == Downloading && id !in runs {
        return false;
      }
      accepted := true;
      RemoveFromQueueLocked(id);
      RefreshScheduleTimerLocked(now);
      tasks := tasks[id := PausedTask(tasks[id])];
      hold := if id in runs then PauseHold(id) else Free;
    }

    /** The rest of a pause, once the run has ended. */
    method FinishPause(id: TaskID, disk: Disk, now: Time)
      requires Inv(View()) && hold == PauseHold(id) && id !in runs && id in tasks && id in requests
      modifies this
      ensures Next(old(View()), Action.FinishPause(id, disk), now) == Some(View()) && Inv(View())
    {
      hide Inv, Next;
      FinishPauseUnfolds(View(), id, disk, now);
      hold := Free;
      var progress := PartialProgress(tasks[id], requests[id], disk);
      if progress.None? {
        return;
      }
      if tasks[id].state == TaskState.Paused {
        tasks := tasks[id := tasks[id].(downloaded := progress.value)];
      }
    }

    method Resume(id: TaskID, disk: Disk, saved: bool, now: Time) returns (accepted: bool)
      requires Inv(View()) && hold == Free
      modifies this
      ensures Performs(old(View()), View(), Action.Resume(id, disk, saved), now, accepted) && Inv(View())
    {
      hide Inv, Next, Fill, EarliestPlan, Without;
      ResumeUnfolds(View(), id, disk, saved, now);
      if closed || id !in tasks || tasks[id].state != TaskState.Paused || id !in requests || disk.dest.Some? {
        return false;
      }
      var progress := PartialProgress(tasks[id], requests[id], disk);
      if progress.None? || progress.value != tasks[id].downloaded {
        return false;
      }
      if progress.value > 0 && requests[id].validator.None? {
        return false;
      }
      accepted := true;
      requests := requests[id := requests[id].(offset := progress.value, expectedSize := tasks[id].total)];
      tasks := tasks[id := tasks[id].(state := Queued, error := None, retryCount := 0,
                                      nextRetryAt := None, scheduledAt := None)];
      if !saved {
        tasks := tasks[id := tasks[id].(state := TaskState.Paused)];
        return;
      }
      EnqueueLocked(id);
      FillAvailableSlotsLocked(now);
    }

    method Retry(id: TaskID, disk: Disk, saved: bool, now: Time) returns (accepted: bool)
      requires Inv(View()) && hold == Free
      modifies this
      ensures Performs(old(View()), View(), Action.Retry(id, disk, saved), now, accepted) && Inv(View())
    {
      hide Inv, Next, Fill, EarliestPlan, Without, PrepareManualRetry;
      ManualRetryUnfolds(View(), id, disk, saved, now);
      if closed || id !in tasks || tasks[id].state != Failed || id !in requests {
        return false;
      }
      if tasks[id].error.None? || !tasks[id].error.value.retryable || disk.dest.Some? {
        return false;
      }
      var prepared := PrepareManualRetry(requests[id], tasks[id].total, disk);
      if prepared.None? {
        return false;
      }
      accepted := true;
      var (request, kept, _) := prepared.value;
      var previousTask, previousRequest := tasks[id], requests[id];
      requests := requests[id := request.(offset := kept, expectedSize := tasks[id].total)];
      tasks := tasks[id := RequeuedByUser(tasks[id], kept)];
      if !saved {
        tasks := tasks[id := previousTask];
        requests := requests[id := previousRequest];
        assert tasks == old(tasks) && requests == old(requests);
        return;
      }
      EnqueueLocked(id);
      FillAvailableSlotsLocked(now);
    }

    method Cancel(id: TaskID, now: Time) returns (accepted: bool)
      requires Inv(View()) && hold == Free
      modifies this
      ensures Performs(old(View()), View(), Action.Cancel(id), now, accepted) && Inv(View())
    {
      hide Inv, Next, Fill, EarliestPlan, Without;
      CancelUnfolds(View(), id, now);
      if closed || id !in tasks || id !in requests {
        return false;
      }
      if !IsActiveState(tasks[id].state) && tasks[id].state != TaskState.Paused {
        return false;
      }
      accepted := true;
      RemoveFromQueueLocked(id);
      RefreshScheduleTimerLocked(now);
      requests := requests[id := requests[id].(checkpoint := None)];
      tasks := tasks[id := CanceledTask(tasks[id])];
      hold := CancelHold(id);
    }

    /** The rest of a cancellation, once the run has ended. */
    method FinishCancel(id: TaskID, now: Time)
      requires Inv(View()) && hold == CancelHold(id) && id !in runs
      modifies this`hold
      ensures Next(old(View()), Action.FinishCancel(id), now) == Some(View()) && Inv(View())
    {
      StepKeeps(View(), Action.FinishCancel(id), now);
      hold := Free;
    }

    /** A task that is over leaves the store first; if the store fails, the task stays. */
    method Delete(id: TaskID, removed: bool, now: Time) returns (accepted: bool)
      requires Inv(View()) && hold == Free
      modifies this
      ensures Performs(old(View()), View(), Action.Delete(id, removed), now, accepted) && Inv(View())
    {
      hide Inv, Next, Fill, EarliestPlan, Without;
      DeleteUnfolds(View(), id, removed, now);
      if closed || id !in tasks || !IsTerminalState(tasks[id].state) {
        return false;
      }
      accepted := true;
      if !removed {
        return;
      }
      tasks := tasks - {id};
      requests := requests - {id};
      RemoveFromQueueLocked(id);
    }

    method ApplySchedulerSettings(maxConcurrent: nat, retries: nat, now: Time)
      requires Inv(View())
      modifies this
      ensures Next(old(View()), ApplySettings(maxConcurrent, retries), now) == Some(View()) && Inv(View())
    {
      if closed {
        return;
      }
      UpdateKeeps(View(), ApplySettings(maxConcurrent, retries), now);
      maxConcurrentTasks := maxConcurrent;
      maxRetries := retries;
      FillAvailableSlotsLocked(now);
    }

    /** The callback of the timer armed with `generation`. */
    method WakeScheduledTasks(generation: nat, now: Time)
      requires Inv(View())
      modifies this
      ensures Next(old(View()), Wake(generation), now) == Some(View()) && Inv(View())
    {
      if closed || generation != scheduleGeneration {
        return;
      }
      UpdateKeeps(View(), Wake(generation), now);
      scheduleTimer := None;
      FillAvailableSlotsLocked(now);
    }

    // -------------------------------------------------------------------
    // The runs

    /** A progress report of the run with this token. */
    method ReportProgress(id: TaskID, token: nat, downloaded: int, total: int, checkpoint: Option<TransferCheckpoint>,
                          now: Time)
      requires Inv(View()) && (id, token) in live
      modifies this`tasks, this`requests
      ensures Next(old(View()), Progress(id, token, downloaded, total, checkpoint), now) == Some(View()) && Inv(View())
    {
      hide Inv, Next, Fill, EarliestPlan, Without;
      ReportUnfolds(View(), id, token, downloaded, total, checkpoint, now);
      if id !in tasks || id !in requests {
        return;
      }
      var acceptPausedCheckpoint :=
        tasks[id].state == TaskState.Paused && checkpoint.Some? && id in runs && runs[id] == token;
      if tasks[id].state != Downloading && !acceptPausedCheckpoint {
        return;
      }
      if checkpoint.Some? {
        if !ValidCheckpoint(checkpoint.value, total) || Downloaded(checkpoint.value) != downloaded {
          return;
        }
        requests := requests[id :=
          requests[id].(checkpoint := checkpoint, expectedSize := total, acceptRanges := true, allowSegments := true)];
      }
      tasks := tasks[id := tasks[id].(downloaded := downloaded, total := total)];
      assert checkpoint.None? ==> requests == requests[id := requests[id]];
    }

    /** What an automatic retry continues from. */
    static method PrepareRetry(oldRequest: Request, disk: Disk) returns (request: Request)
      ensures request == PrepareAutomaticRetry(oldRequest, disk).0
    {
      request := oldRequest;
      if request.checkpoint.Some? {
        request := request.(checkpoint := None, offset := 0);
      } else {
        var size := WorkSize(disk);
        if size > 0 && request.validator.None? {
          size := 0;
        }
        request := request.(offset := size);
      }
    }

    /** Plans an automatic retry, unless the budget is used up. */
    method ScheduleRetryLocked(id: TaskID, disk: Disk, now: Time) returns (scheduled: bool)
      requires id in tasks && id in requests
      modifies this`tasks, this`requests, this`waiters
      ensures scheduled == (old(tasks)[id].retryCount < maxRetries)
      ensures View() == if scheduled then EndUpdate(old(View()), id, FailsTransiently(disk), retryBaseDelay, now)
                        else old(View())
    {
      hide PrepareAutomaticRetry, RetryDelay, EndUpdate, RetryingTask;
      if tasks[id].retryCount >= maxRetries {
        return false;
      }
      var request := PrepareRetry(requests[id], disk);
      var delay := ComputeRetryDelay(retryBaseDelay, tasks[id].retryCount);
      var nextRetryAt := now + delay;
      requests := requests[id := request];
      tasks := tasks[id := RetryingTask(tasks[id], request.offset, nextRetryAt)];
      waiters := waiters + multiset{(id, nextRetryAt)};
      RetryUnfolds(old(View()), id, disk, retryBaseDelay, now);
      return true;
    }

    /** The last section of a run: its slot is freed, its task goes on or ends, and waiting tasks may start. */
    method ExitRun(id: TaskID, token: nat, ending: Ending, now: Time)
      requires Inv(View()) && (id, token) in live
      modifies this
      ensures Next(old(View()), Action.ExitRun(id, token, ending, retryBaseDelay), now) == Some(View()) && Inv(View())
    {
      hide Inv, Next, Fill, ExitUpdate;
      ExitUnfolds(View(), id, token, ending, retryBaseDelay, now);
      FinishRunLocked(id, token, ending, now);
      FillAvailableSlotsLocked(now);
    }

    method DropRunLocked(id: TaskID, token: nat)
      modifies this`runs, this`live
      ensures View() == DropRun(old(View()), id, token)
    {
      if id in runs && runs[id] == token {
        runs := runs - {id};
      }
      live := live - {(id, token)};
    }

    method FinishRunLocked(id: TaskID, token: nat, ending: Ending, now: Time)
      modifies this
      ensures View() == ExitUpdate(old(View()), id, token, ending, retryBaseDelay, now)
    {
      hide EndUpdate;
      DropRunLocked(id, token);
      if id in tasks && id in requests && tasks[id].state == Downloading {
        EndTaskLocked(id, ending, now);
      }
    }

    method EndTaskLocked(id: TaskID, ending: Ending, now: Time)
      requires id in tasks && id in requests
      modifies this`tasks, this`requests, this`waiters
      ensures View() == EndUpdate(old(View()), id, ending, retryBaseDelay, now)
    {
      hide RetryDelay;
      var task := tasks[id];
      var request := requests[id];
      if ending.Completes? {
        task := CompletedTask(task, ending.size);
      } else if ending.Interrupts? {
        task := CanceledTask(task);
      } else {
        if ending.FailsTransiently? {
          var scheduled := ScheduleRetryLocked(id, ending.disk, now);
          if scheduled {
            return;
          }
        }
        task := FailedTask(task, ending.FailsTransiently?);
      }
      requests := requests[id := request.(checkpoint := None)];
      tasks := tasks[id := task];
    }

    /** The goroutine that slept until `retryAt` wakes. */
    method WaitForRetry(id: TaskID, retryAt: Time, now: Time)
      requires Inv(View()) && (id, retryAt) in waiters && retryAt <= now
      modifies this
      ensures Next(old(View()), RetryDue(id, retryAt), now) == Some(View()) && Inv(View())
    {
      hide Inv, Next, Fill, EarliestPlan, Without;
      ghost var s := View();
      RetryDueUnfolds(s, id, retryAt, now);
      waiters := waiters - multiset{(id, retryAt)};
      if closed || id !in tasks || tasks[id].state != Retrying || tasks[id].nextRetryAt != Some(retryAt) {
        return;
      }
      tasks := tasks[id := tasks[id].(state := Queued, nextRetryAt := None)];
      EnqueueLocked(id);
      FillAvailableSlotsLocked(now);
    }

    // -------------------------------------------------------------------
    // Start and shutdown

    /** Reads the store into a manager that has no tasks yet; false when it holds something unreadable. */
    method Restore(records: seq<Record>, now: Time) returns (ok: bool)
      requires View() == Initial(maxConcurrentTasks, maxRetries)
      modifies this
      ensures ok == Restored(old(maxConcurrentTasks), old(maxRetries), records, now).Some?
      ensures ok ==> Restored(old(maxConcurrentTasks), old(maxRetries), records, now) == Some(View()) && Inv(View())
    {
      hide Inv, Reconcile, EarliestPlan, Without;
      ghost var initial := View();
      for i := 0 to |records|
        invariant RestoreAll(initial, records[..i], now) == Some(View())
      {
        assert records[..i + 1][..i] == records[..i];
        var recovered := ReconcileStoredTask(records[i].stored, records[i].disk, now);
        if recovered.None? || records[i].id in tasks {
          RestoreFails(initial, records, i, now);
          return false;
        }
        var task := recovered.value.task;
        tasks := tasks[records[i].id := task];
        requests := requests[records[i].id := recovered.value.request];
        if task.state == Queued && InFuture(task, now) {
          EnqueueLocked(records[i].id);
        }
      }
      assert records[..|records|] == records;
      RefreshScheduleTimerLocked(now);
      RestoredStarts(initial.maxConcurrent, initial.maxRetries, records, now);
      return true;
    }

    /** Nothing starts any more: active tasks are paused, except plans that never started. */
    method Close(now: Time)
      requires Inv(View()) && hold == Free && !closed
      modifies this
      ensures Next(old(View()), Action.Close, now) == Some(View()) && Inv(View())
    {
      hide Inv, Next, Fill, EarliestPlan, Without;
      CloseUnfolds(View(), now);
      closed := true;
      scheduleGeneration := scheduleGeneration + 1;
      scheduleTimer := None;
      PauseActiveTasks(now);
      queue := [];
    }

    method PauseActiveTasks(now: Time)
      modifies this`tasks
      ensures tasks == CloseUpdate(old(View()), now).tasks
    {
      var remaining := tasks.Keys;
      while remaining != {}
        invariant remaining <= tasks.Keys == old(tasks).Keys
        invariant forall id :: id in tasks ==>
                                 tasks[id] == if id in remaining then old(tasks)[id]
                                              else ClosedTask(old(tasks)[id], now)
      {
        var id :| id in remaining;
        remaining := remaining - {id};
        var task := tasks[id];
        if task.state == Queued && InFuture(task, now) && task.downloaded == 0 {
          continue;
        }
        if IsActiveState(task.state) {
          tasks := tasks[id := PausedTask(task)];
        }
      }
    }

    /** The last section of a shutdown: paused tasks count what their files hold. */
    method FinishClose(disks: map<TaskID, Disk>, now: Time)
      requires Inv(View()) && closed && runs == map[]
      modifies this`tasks
      ensures Next(old(View()), Action.FinishClose(disks), now) == Some(View()) && Inv(View())
    {
      hide Inv, Next, Fill, EarliestPlan, Without;
      FinishCloseUnfolds(View(), disks, now);
      ghost var s := View();
      var remaining := tasks.Keys;
      while remaining != {}
        invariant remaining <= tasks.Keys == s.tasks.Keys
        invariant forall id :: id in tasks ==>
                                 tasks[id] == if id in remaining then s.tasks[id]
                                              else FinishCloseUpdate(s, disks).tasks[id]
      {
        var id :| id in remaining;
        remaining := remaining - {id};
        if tasks[id].state != TaskState.Paused || id !in requests || id !in disks {
          continue;
        }
        var progress := PartialProgress(tasks[id], requests[id], disks[id]);
        if progress.Some? {
          tasks := tasks[id := tasks[id].(downloaded := progress.value)];
        }
      }
      assert tasks == FinishCloseUpdate(s, disks).tasks;
    }
  }

  lemma RestoredStarts(maxConcurrent: nat, maxRetries: nat, records: seq<Record>, now: Time)
    requires Restored(maxConcurrent, maxRetries, records, now).Some?
    ensures Inv(Restored(maxConcurrent, maxRetries, records, now).value)
  {
    hide OpenInv, ClosedInv;
    var initial := Initial(maxConcurrent, maxRetries);
    InitialIsOpen(maxConcurrent, maxRetries);
    RestoreAllKeeps(initial, records, now);
    RefreshKeeps(RestoreAll(initial, records, now).value, now);
  }

  /** One record that cannot be restored stops the start. */
  lemma {:induction false} RestoreFails(s: State, records: seq<Record>, i: nat, now: Time)
    requires i < |records| && RestoreAll(s, records[..i + 1], now).None?
    ensures RestoreAll(s, records, now).None?
  {
    if i + 1 == |records| {
      assert records[..i + 1] == records;
    } else {
      var init := records[..|records| - 1];
      assert init[..i + 1] == records[..i + 1];
      RestoreFails(s, init, i, now);
    }
  }
}
