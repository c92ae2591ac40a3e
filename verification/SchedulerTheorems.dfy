/** The main results about the scheduler. */
module SchedulerTheorems {
  import opened Basics
  import opened Checkpoints
  import opened Recovery
  import opened Sequences
  import opened Tasks
  import opened SchedulerSpec
  import opened SchedulerSafety

  // ---------------------------------------------------------------------
  // Every action keeps the invariant

  /** Enqueuing puts the task at the end, once, and keeps the order of all others. */
  lemma EnqueueKeepsOrder(s: State, id: TaskID)
    ensures var queue := Enqueue(s, id).queue;
            && queue != [] && queue[|queue| - 1] == id && id !in queue[..|queue| - 1]
            && (forall a, b :: a != id && b != id ==> (Before(queue, a, b) <==> Before(s.queue, a, b)))
            && (forall other :: other in queue <==> other in s.queue || other == id)
            && (NoDuplicates(s.queue) ==> NoDuplicates(queue))
  {
    var kept := Without(s.queue, id);
    FilterFacts(s.queue, other => other != id);
    assert Enqueue(s, id).queue[..|kept|] == kept;
    forall a, b | a != id && b != id ensures Before(kept + [id], a, b) <==> Before(s.queue, a, b) {
      FilterKeepsOrder(s.queue, other => other != id, a, b);
      BeforeLast(kept, id, a, b);
    }
    if NoDuplicates(s.queue) {
      WithoutFacts(s.queue, id);
      NoDuplicatesConcat(kept, [id]);
    }
  }

  lemma WithoutFacts(queue: seq<TaskID>, id: TaskID)
    requires NoDuplicates(queue)
    ensures NoDuplicates(Without(queue, id))
    ensures forall other :: other in Without(queue, id) <==> other in queue && other != id
    ensures id !in queue ==> Without(queue, id) == queue
  {
    FilterFacts(queue, other => other != id);
    FilterNoDuplicates(queue, other => other != id);
    if id !in queue {
      FilterAll(queue, other => other != id);
    }
  }

  /** A task that has no run, and that no operation waits for, may be queued with any request. */
  lemma QueueingKeeps(s: State, id: TaskID, task: Task, request: Request)
    requires OpenInv(s) && task.state == Queued && id !in s.runs
    requires s.hold != PauseHold(id) && s.hold != CancelHold(id)
    ensures OpenInv(Enqueue(s.(tasks := s.tasks[id := task], requests := s.requests[id := request]), id))
  {
    hide RunsOK, RetriesOK, QueueOK;
    var after := Enqueue(s.(tasks := s.tasks[id := task], requests := s.requests[id := request]), id);
    QueueingKeepsQueue(s, after, id);
    QueueingKeepsRuns(s, after, id);
    QueueingKeepsRetries(s, after, id);
  }

  /** `after` differs from `s` in the task and the request of `id`, which is queued, and in the queue. */
  predicate OnlyQueued(s: State, after: State, id: TaskID) {
    && id in after.tasks && after.tasks[id].state == Queued
    && after.tasks == s.tasks[id := after.tasks[id]]
    && after.runs == s.runs && after.live == s.live && after.hold == s.hold && after.nextRun == s.nextRun
    && after.waiters == s.waiters
  }

  lemma QueueingKeepsQueue(s: State, after: State, id: TaskID)
    requires QueueOK(s) && OnlyQueued(s, after, id) && after.queue == Enqueue(s, id).queue
    ensures QueueOK(after)
  {
    EnqueueKeepsOrder(s, id);
  }

  lemma QueueingKeepsRuns(s: State, after: State, id: TaskID)
    requires RunsOK(s) && OnlyQueued(s, after, id) && id !in s.runs
    ensures RunsOK(after)
  {
  }

  lemma QueueingKeepsRetries(s: State, after: State, id: TaskID)
    requires RetriesOK(s) && OnlyQueued(s, after, id)
    ensures RetriesOK(after)
  {
  }

  lemma RequeueKeeps(s: State, id: TaskID, progress: int, request: Request)
    requires OpenInv(s) && MayRequeue(s, id) && (s.tasks[id].state == Paused || s.tasks[id].state == Failed)
    ensures OpenInv(RequeueUpdate(s, id, progress, request))
  {
    QueueingKeeps(s, id, RequeuedByUser(s.tasks[id], progress), request);
  }

  /** `after` takes an idle or running task out of the queue and settles it; an operation waits for its run. */
  ghost predicate TakenOut(s: State, after: State, id: TaskID) {
    && id in s.tasks && id in after.tasks && after.tasks == s.tasks[id := after.tasks[id]]
    && after.requests.Keys == s.requests.Keys
    && after.queue == Without(s.queue, id)
    && after.runs == s.runs && after.live == s.live && after.nextRun == s.nextRun && after.waiters == s.waiters
    && (after.timer.Some? ==> after.timer.value.generation == after.generation)
    && match after.tasks[id].state
       case Paused => after.hold == if id in s.runs then PauseHold(id) else Free
       case Canceled => after.hold == CancelHold(id)
       case _ => false
  }

  lemma TakingOutKeeps(s: State, after: State, id: TaskID)
    requires OpenInv(s) && s.hold == Free && TakenOut(s, after, id)
    ensures OpenInv(after)
  {
    hide RunsOK, RetriesOK, QueueOK;
    TakingOutKeepsQueue(s, after, id);
    TakingOutKeepsRuns(s, after, id);
    TakingOutKeepsRetries(s, after, id);
  }

  lemma TakingOutKeepsQueue(s: State, after: State, id: TaskID)
    requires QueueOK(s) && TakenOut(s, after, id)
    ensures QueueOK(after)
  {
    WithoutFacts(s.queue, id);
  }

  lemma TakingOutKeepsRuns(s: State, after: State, id: TaskID)
    requires RunsOK(s) && s.hold == Free && TakenOut(s, after, id)
    ensures RunsOK(after)
  {
  }

  lemma TakingOutKeepsRetries(s: State, after: State, id: TaskID)
    requires RetriesOK(s) && TakenOut(s, after, id)
    ensures RetriesOK(after)
  {
  }

  lemma PauseKeeps(s: State, id: TaskID, now: Time)
    requires OpenInv(s) && MayPause(s, id)
    ensures OpenInv(PauseUpdate(s, id, now))
  {
    hide OpenInv, Without;
    TakingOutKeeps(s, PauseUpdate(s, id, now), id);
  }

  lemma CancelKeeps(s: State, id: TaskID, now: Time)
    requires OpenInv(s) && MayCancel(s, id)
    ensures OpenInv(CancelUpdate(s, id, now))
  {
    hide OpenInv, Without;
    TakingOutKeeps(s, CancelUpdate(s, id, now), id);
  }

  lemma DeleteKeeps(s: State, id: TaskID)
    requires OpenInv(s) && MayDelete(s, id)
    ensures OpenInv(DeleteUpdate(s, id))
  {
    WithoutFacts(s.queue, id);
  }

  lemma ExitKeeps(s: State, id: TaskID, token: nat, ending: Ending, baseDelay: Delay, now: Time)
    requires OpenInv(s) && (id, token) in s.live
    ensures OpenInv(ExitUpdate(s, id, token, ending, baseDelay, now))
  {
    var dropped := DropRun(s, id, token);
    assert dropped.runs == s.runs - {id};
    if s.tasks[id].state == Downloading {
      EndingKeeps(s, id, token, ending, baseDelay, now);
    }
  }

  lemma EndingKeeps(s: State, id: TaskID, token: nat, ending: Ending, baseDelay: Delay, now: Time)
    requires OpenInv(s) && (id, token) in s.live && s.tasks[id].state == Downloading
    ensures OpenInv(ExitUpdate(s, id, token, ending, baseDelay, now))
  {
    var after := ExitUpdate(s, id, token, ending, baseDelay, now);
    assert after.runs == s.runs - {id};
    assert QueueOK(after);
  }

  lemma RetryDueKeeps(s: State, id: TaskID, at: Time)
    requires OpenInv(s) && !s.closed
    ensures OpenInv(RetryDueUpdate(s, id, at))
  {
    hide QueueOK, RunsOK;
    if RetryStillWanted(s, id, at) {
      var task := RequeuedAfterDelay(s.tasks[id]);
      QueueingKeeps(s, id, task, s.requests[id]);
      assert s.requests == s.requests[id := s.requests[id]];
      WaiterGoneKeeps(Enqueue(s.(tasks := s.tasks[id := task]), id), id, at);
    } else {
      WaiterGoneKeeps(s, id, at);
    }
  }

  lemma WaiterGoneKeeps(s: State, id: TaskID, at: Time)
    requires OpenInv(s)
    requires !(id in s.tasks && s.tasks[id].state == Retrying && s.tasks[id].nextRetryAt == Some(at))
    ensures OpenInv(s.(waiters := s.waiters - multiset{(id, at)}))
  {
    hide QueueOK;
    var after := s.(waiters := s.waiters - multiset{(id, at)});
    SameQueueOK(s, after);
    SameRunsOK(s, after);
  }

  /** New numbers for a task do not matter, as long as its state and its retry moment stay. */
  lemma NumbersKeep(s: State, after: State)
    requires OpenInv(s)
    requires after == s.(tasks := after.tasks, requests := after.requests)
    requires after.tasks.Keys == s.tasks.Keys && after.requests.Keys == s.requests.Keys
    requires forall id :: id in s.tasks ==>
                            after.tasks[id].state == s.tasks[id].state
                              && after.tasks[id].nextRetryAt == s.tasks[id].nextRetryAt
    ensures OpenInv(after)
  {
    hide RunsOK, RetriesOK, QueueOK;
    SameQueueOK(s, after);
    SameRunsOK(s, after);
    SameRetriesOK(s, after);
  }

  lemma SameQueueOK(s: State, after: State)
    requires QueueOK(s) && after.queue == s.queue && after.tasks.Keys == s.tasks.Keys
    requires forall id :: id in s.tasks ==> after.tasks[id].state == s.tasks[id].state
    ensures QueueOK(after)
  {
    assert forall id :: IsQueued(s, id) <==> IsQueued(after, id);
  }

  lemma SameRunsOK(s: State, after: State)
    requires RunsOK(s) && after.runs == s.runs && after.live == s.live && after.hold == s.hold
    requires after.nextRun == s.nextRun
    requires after.tasks.Keys == s.tasks.Keys
    requires forall id :: id in s.tasks ==> after.tasks[id].state == s.tasks[id].state
    ensures RunsOK(after)
  {
    assert forall id :: MayRun(s, id) <==> MayRun(after, id);
  }

  lemma SameRetriesOK(s: State, after: State)
    requires RetriesOK(s) && after.runs == s.runs && after.waiters == s.waiters
    requires after.tasks.Keys == s.tasks.Keys
    requires forall id :: id in s.tasks ==>
                            after.tasks[id].state == s.tasks[id].state
                              && after.tasks[id].nextRetryAt == s.tasks[id].nextRetryAt
    ensures RetriesOK(after)
  {
  }

  lemma ReleaseKeeps(s: State, id: TaskID)
    requires OpenInv(s) && (s.hold == PauseHold(id) || s.hold == CancelHold(id)) && id !in s.runs
    ensures OpenInv(s.(hold := Free))
  {
  }

  lemma UnsavedResumeKeeps(s: State, id: TaskID, request: Request)
    requires OpenInv(s) && MayRequeue(s, id) && s.tasks[id].state == Paused
    ensures OpenInv(UnsavedResume(s, id, request))
  {
  }

  lemma SettingsKeep(s: State, maxConcurrent: nat, maxRetries: nat)
    requires OpenInv(s)
    ensures OpenInv(s.(maxConcurrent := maxConcurrent, maxRetries := maxRetries))
  {
  }

  lemma WakeKeeps(s: State)
    requires OpenInv(s)
    ensures OpenInv(s.(timer := None))
  {
  }

  lemma UpdateKeeps(s: State, action: Action, now: Time)
    requires Inv(s) && !s.closed && Update(s, action, now).Some?
    ensures Inv(Update(s, action, now).value.state)
  {
    hide OpenInv;
    var after := Update(s, action, now).value.state;
    match action {
      case Create(id, input, saved) =>
        var task := NewTask(input.expectedSize, input.scheduledAt);
        NothingKnown(s, id);
        QueueingKeeps(s, id, task, NewRequest(task, input.acceptRanges, input.validator));
      case Pause(id) => PauseKeeps(s, id, now);
      case FinishPause(id, disk) =>
        ReleaseKeeps(s, id);
        NumbersKeep(s.(hold := Free), after);
      case Resume(id, disk, saved) =>
        RequeueKeeps(s, id, s.tasks[id].downloaded, ResumePlan(s, id, disk).value);
        UnsavedResumeKeeps(s, id, ResumePlan(s, id, disk).value);
      case Retry(id, disk, saved) =>
        RequeueKeeps(s, id, RetryPlan(s, id, disk).value.1, RetryPlan(s, id, disk).value.0);
      case Cancel(id) => CancelKeeps(s, id, now);
      case FinishCancel(id) => ReleaseKeeps(s, id);
      case Delete(id, _) => DeleteKeeps(s, id);
      case ApplySettings(maxConcurrent, maxRetries) => SettingsKeep(s, maxConcurrent, maxRetries);
      case Wake(_) => WakeKeeps(s);
      case Progress(id, token, downloaded, total, checkpoint) =>
        NumbersKeep(s, ProgressUpdate(s, id, token, downloaded, total, checkpoint));
      case ExitRun(id, token, ending, baseDelay) => ExitKeeps(s, id, token, ending, baseDelay, now);
      case RetryDue(id, at) => RetryDueKeeps(s, id, at);
      case Close => CloseKeeps(s, now);
      case FinishClose(_) =>
    }
  }

  /** When a shutdown begins, every run is that of a downloading task, which is paused. */
  lemma CloseKeeps(s: State, now: Time)
    requires OpenInv(s) && Idle(s)
    ensures ClosedInv(CloseUpdate(s, now))
  {
  }

  /** During a shutdown runs only end, reports only change numbers, and nothing else happens. */
  lemma ClosedUpdateKeeps(s: State, action: Action, now: Time)
    requires s.closed && ClosedInv(s) && Update(s, action, now).Some?
    ensures Update(s, action, now).value.state.closed && ClosedInv(Update(s, action, now).value.state)
  {
    hide ClosedInv, ExitUpdate, ProgressUpdate, FinishCloseUpdate, Reconciled, EarliestPlan, Without, PrepareResume,
         PrepareManualRetry;
    match action {
      case ExitRun(id, token, ending, baseDelay) => ClosedExitKeeps(s, id, token, ending, baseDelay, now);
      case Progress(id, token, downloaded, total, checkpoint) =>
        ClosedReportKeeps(s, id, token, downloaded, total, checkpoint);
      case FinishClose(disks) => ClosedFinishKeeps(s, disks);
      case FinishPause(_, _) => ClosedHoldsNothing(s);
      case FinishCancel(_) => ClosedHoldsNothing(s);
      case RetryDue(id, at) => ClosedWakeKeeps(s, id, at);
      case _ =>
    }
  }

  lemma ClosedHoldsNothing(s: State)
    requires ClosedInv(s)
    ensures s.hold == Free
  {
  }

  lemma ClosedExitKeeps(s: State, id: TaskID, token: nat, ending: Ending, baseDelay: Delay, now: Time)
    requires s.closed && ClosedInv(s) && (id, token) in s.live
    ensures ExitUpdate(s, id, token, ending, baseDelay, now) == DropRun(s, id, token)
            && ClosedInv(DropRun(s, id, token))
  {
    assert DropRun(s, id, token).runs == s.runs - {id};
  }

  lemma ClosedReportKeeps(s: State, id: TaskID, token: nat, downloaded: int, total: int,
                          checkpoint: Option<TransferCheckpoint>)
    requires s.closed && ClosedInv(s)
    ensures var after := ProgressUpdate(s, id, token, downloaded, total, checkpoint); after.closed && ClosedInv(after)
  {
    hide AcceptsReport;
  }

  lemma ClosedFinishKeeps(s: State, disks: map<TaskID, Disk>)
    requires s.closed && ClosedInv(s)
    ensures FinishCloseUpdate(s, disks).closed && ClosedInv(FinishCloseUpdate(s, disks))
  {
    hide PartialProgress;
  }

  lemma ClosedWakeKeeps(s: State, id: TaskID, at: Time)
    requires s.closed && ClosedInv(s)
    ensures RetryDueUpdate(s, id, at).closed && ClosedInv(RetryDueUpdate(s, id, at))
  {
  }

  lemma NothingKnown(s: State, id: TaskID)
    requires OpenInv(s) && id !in s.tasks
    ensures id !in s.runs && s.hold != PauseHold(id) && s.hold != CancelHold(id)
  {
  }

  /** Every action keeps the invariant. */
  lemma StepKeeps(s: State, action: Action, now: Time)
    requires Inv(s) && Next(s, action, now).Some?
    ensures Inv(Next(s, action, now).value)
  {
    hide OpenInv, ClosedInv, Fill, Update;
    UpdateKeepsInv(s, action, now);
    FillKeeps(Update(s, action, now).value.state, now);
  }

  lemma UpdateKeepsInv(s: State, action: Action, now: Time)
    requires Inv(s) && Update(s, action, now).Some?
    ensures Inv(Update(s, action, now).value.state)
  {
    hide OpenInv, ClosedInv, Update;
    if s.closed {
      ClosedUpdateKeeps(s, action, now);
    } else {
      UpdateKeeps(s, action, now);
    }
  }

  /** A closed manager stays closed. */
  lemma ClosedStays(s: State, action: Action, now: Time)
    requires s.closed && Next(s, action, now).Some?
    ensures Next(s, action, now).value.closed
  {
    assert Update(s, action, now).value.state.closed;
  }

  // ---------------------------------------------------------------------
  // Whole runs

  /** The actions, in this order and at these times, lead from `from` to `to`. */
  ghost predicate Leads(from: State, actions: seq<(Action, Time)>, to: State)
    decreases |actions|
  {
    if actions == [] then from == to
    else
      && Next(from, actions[0].0, actions[0].1).Some?
      && Leads(Next(from, actions[0].0, actions[0].1).value, actions[1..], to)
  }

  lemma {:induction false} RunsKeep(from: State, actions: seq<(Action, Time)>, to: State)
    requires Inv(from) && Leads(from, actions, to)
    ensures Inv(to)
    decreases |actions|
  {
    if actions != [] {
      hide Next, Inv;
      StepKeeps(from, actions[0].0, actions[0].1);
      RunsKeep(Next(from, actions[0].0, actions[0].1).value, actions[1..], to);
    }
  }

  /** Recovery leaves nothing running and nothing waiting, and queues what is still planned. */
  lemma RestoreOneKeeps(s: State, record: Record, now: Time)
    requires OpenInv(s) && s.hold == Free && s.runs == map[] && RestoreOne(s, record, now).Some?
    ensures OpenInv(RestoreOne(s, record, now).value)
  {
    RecoveryStopsEverything(record.stored, record.disk, now);
    RecoverySettles(record.stored, record.disk, now);
    hide Reconcile, Settled;
    var recovered := Reconcile(record.stored, record.disk, now).value;
    if recovered.task.state == Queued {
      QueueingKeeps(s, record.id, recovered.task, recovered.request);
    } else {
      SettledTaskKeeps(s, record.id, recovered.task, recovered.request);
    }
  }

  lemma SettledTaskKeeps(s: State, id: TaskID, task: Task, request: Request)
    requires OpenInv(s) && id !in s.tasks && (task.state == Paused || IsTerminalState(task.state))
    ensures OpenInv(s.(tasks := s.tasks[id := task], requests := s.requests[id := request]))
  {
  }

  lemma {:induction false} RestoreAllKeeps(s: State, records: seq<Record>, now: Time)
    requires OpenInv(s) && s.hold == Free && s.runs == map[] && RestoreAll(s, records, now).Some?
    ensures var after := RestoreAll(s, records, now).value;
            OpenInv(after) && after.hold == Free && after.runs == map[] && after.closed == s.closed
  {
    if records != [] {
      hide OpenInv;
      var init := records[..|records| - 1];
      RestoreAllKeeps(s, init, now);
      RestoreOneKeeps(RestoreAll(s, init, now).value, records[|records| - 1], now);
    }
  }

  /** Every manager starts in a state that satisfies the invariant. */
  lemma StartsWell(s: State)
    requires IsStart(s)
    ensures Inv(s)
  {
    hide OpenInv, ClosedInv;
    var initial := Initial(s.maxConcurrent, s.maxRetries);
    InitialIsOpen(s.maxConcurrent, s.maxRetries);
    if s != initial {
      var records, now :| Restored(s.maxConcurrent, s.maxRetries, records, now) == Some(s);
      RestoreAllKeeps(initial, records, now);
      RefreshKeeps(RestoreAll(initial, records, now).value, now);
    }
  }

  lemma InitialIsOpen(maxConcurrent: nat, maxRetries: nat)
    ensures OpenInv(Initial(maxConcurrent, maxRetries))
  {
  }

  lemma RefreshKeeps(s: State, now: Time)
    requires OpenInv(s)
    ensures OpenInv(RefreshTimer(s, now))
  {
    hide QueueOK, RunsOK;
    SameQueueOK(s, RefreshTimer(s, now));
    SameRunsOK(s, RefreshTimer(s, now));
  }

  /**
   In every state reachable before the manager is closed: the queue is duplicate-free and holds exactly
   the queued tasks, every downloading task has exactly one live run, every other live run belongs to a
   paused or canceled task whose operation still waits for it, and a retrying task holds no slot.
   */
  lemma ManagerInvariant(start: State, actions: seq<(Action, Time)>, s: State)
    requires IsStart(start) && Leads(start, actions, s) && !s.closed
    ensures NoDuplicates(s.queue)
    ensures forall id :: id in s.queue <==> id in s.tasks && s.tasks[id].state == Queued
    ensures forall id :: id in s.tasks && s.tasks[id].state == Downloading ==>
                           exists token :: && (id, token) in s.live
                                           && forall other :: (id, other) in s.live ==> other == token
    ensures forall id, token :: (id, token) in s.live ==>
                                  && id in s.tasks
                                  && (s.tasks[id].state == Downloading
                                      || (s.tasks[id].state == Paused && s.hold == PauseHold(id))
                                      || (s.tasks[id].state == Canceled && s.hold == CancelHold(id)))
    ensures forall id :: id in s.tasks && s.tasks[id].state == Retrying ==>
                           && id !in s.runs && s.tasks[id].nextRetryAt.Some?
                           && (id, s.tasks[id].nextRetryAt.value) in s.waiters
  {
    StartsWell(start);
    RunsKeep(start, actions, s);
    forall id | id in s.tasks && s.tasks[id].state == Downloading
      ensures exists token :: (id, token) in s.live && forall other :: (id, other) in s.live ==> other == token
    {
      assert (id, s.runs[id]) in s.live;
    }
  }

  /**
   In every state reachable after a shutdown began: nothing waits to start, and what still runs belongs to paused
   tasks.
   */
  lemma ShutdownInvariant(start: State, actions: seq<(Action, Time)>, s: State)
    requires IsStart(start) && Leads(start, actions, s) && s.closed
    ensures s.queue == [] && s.timer.None? && s.hold == Free
    ensures forall id, token :: (id, token) in s.live ==> id in s.tasks && s.tasks[id].state == TaskState.Paused
    ensures forall id :: id in s.tasks ==> s.tasks[id].state != Downloading && s.tasks[id].state != Retrying
  {
    hide OpenInv;
    StartsWell(start);
    RunsKeep(start, actions, s);
  }

  // ---------------------------------------------------------------------
  // Slots

  lemma FillRespectsLimit(s: State, now: Time)
    requires Inv(s)
    ensures |Fill(s, now).runs| <= Max(|s.runs|, s.maxConcurrent)
    ensures s.runs.Keys <= Fill(s, now).runs.Keys
    ensures Fill(s, now).maxConcurrent == s.maxConcurrent
  {
    if !s.closed {
      FillEffect(s, now);
      FillStartsFacts(s, now);
      NoDuplicatesCount(FillStarts(s, now), Members(FillStarts(s, now)));
    }
  }

  /** Only a fill starts runs. */
  lemma UpdateStartsNothing(s: State, action: Action, now: Time)
    requires Update(s, action, now).Some?
    ensures forall id :: !StartsRun(s, Update(s, action, now).value.state, id)
    ensures Update(s, action, now).value.state.runs.Keys <= s.runs.Keys
  {
  }

  /** No action takes more slots than the larger of those in use and the limit now in force. */
  lemma ConcurrencyBound(s: State, action: Action, now: Time)
    requires Inv(s) && Next(s, action, now).Some?
    ensures var after := Next(s, action, now).value;
            |after.runs| <= Max(|s.runs|, after.maxConcurrent)
  {
    hide Fill, OpenInv, Update, StartsRun;
    var updated := Update(s, action, now).value.state;
    UpdateStartsNothing(s, action, now);
    assert |updated.runs| == |updated.runs.Keys| && |s.runs| == |s.runs.Keys|;
    SubsetCount(updated.runs.Keys, s.runs.Keys);
    if s.closed {
      ClosedStays(s, action, now);
      FillNeedsOpen(updated, now);
    } else {
      UpdateKeeps(s, action, now);
      FillRespectsLimit(updated, now);
    }
  }

  lemma FillNeedsOpen(s: State, now: Time)
    ensures s.closed ==> Fill(s, now) == s
    ensures Fill(s, now).closed == s.closed
  {
    StartAllFrame(s.(queue := FillLeaves(s, now)), FillStarts(s, now));
  }

  lemma FullHouseStartsNothing(s: State, now: Time)
    requires Inv(s) && s.maxConcurrent <= |s.runs|
    ensures Fill(s, now).runs == s.runs
  {
    if !s.closed {
      FillEffect(s, now);
      FillStartsFacts(s, now);
      assert FillStarts(s, now) == [];
    }
  }

  /** Lowering the limit ends no run, and no run starts while the new limit is already reached. */
  lemma SettingsEndNoRun(s: State, maxConcurrent: nat, maxRetries: nat, now: Time)
    requires Inv(s) && !s.closed
    ensures var after := Next(s, ApplySettings(maxConcurrent, maxRetries), now).value;
            && s.runs.Keys <= after.runs.Keys
            && (maxConcurrent <= |s.runs| ==> after.runs == s.runs)
  {
    hide Fill;
    var limited := s.(maxConcurrent := maxConcurrent, maxRetries := maxRetries);
    SettingsKeep(s, maxConcurrent, maxRetries);
    FillRespectsLimit(limited, now);
    if maxConcurrent <= |s.runs| {
      FullHouseStartsNothing(limited, now);
    }
  }

  predicate KeepsLimit(actions: seq<(Action, Time)>, limit: nat) {
    forall i :: 0 <= i < |actions| && actions[i].0.ApplySettings? ==> actions[i].0.maxConcurrent == limit
  }

  /** While the limit stays the same, the number of live runs never exceeds it. */
  lemma {:induction false} ConstantLimitHolds(from: State, actions: seq<(Action, Time)>, to: State, limit: nat)
    requires Inv(from) && Leads(from, actions, to) && KeepsLimit(actions, limit)
    requires from.maxConcurrent == limit && |from.runs| <= limit
    ensures |to.runs| <= limit
    decreases |actions|
  {
    if actions != [] {
      hide Next, Inv;
      var (action, now) := actions[0];
      var next := Next(from, action, now).value;
      LimitChange(from, action, now);
      ConcurrencyBound(from, action, now);
      StepKeeps(from, action, now);
      ConstantLimitHolds(next, actions[1..], to, limit);
    }
  }

  lemma {:induction false} StartAllFrame(s: State, ids: seq<TaskID>)
    ensures var after := StartAll(s, ids);
            && after.maxConcurrent == s.maxConcurrent && after.maxRetries == s.maxRetries && after.closed == s.closed
            && after.generation == s.generation
  {
    if ids != [] {
      StartAllFrame(s, ids[..|ids| - 1]);
    }
  }

  lemma UpdateLimits(s: State, action: Action, now: Time)
    requires Update(s, action, now).Some?
    ensures var after := Update(s, action, now).value.state;
            if action.ApplySettings? && !s.closed
            then after.maxConcurrent == action.maxConcurrent && after.maxRetries == action.maxRetries
            else after.maxConcurrent == s.maxConcurrent && after.maxRetries == s.maxRetries
  {
    hide EarliestPlan, Without, PrepareResume, PrepareManualRetry, NewRequest, EndUpdate, ProgressUpdate, Reconciled;
    ReportKeepsLimits(s, action);
  }

  lemma ReportKeepsLimits(s: State, action: Action)
    ensures action.Progress? ==>
              var after := ProgressUpdate(s, action.id, action.token, action.downloaded, action.total,
                                          action.checkpoint);
              after.maxConcurrent == s.maxConcurrent && after.maxRetries == s.maxRetries
    ensures action.ExitRun? && action.id in s.tasks && action.id in s.requests ==>
              forall now ::
                var after := EndUpdate(DropRun(s, action.id, action.token), action.id, action.ending, action.baseDelay,
                                       now);
                            after.maxConcurrent == s.maxConcurrent && after.maxRetries == s.maxRetries
  {
  }

  lemma FillLimits(s: State, now: Time)
    ensures Fill(s, now).maxConcurrent == s.maxConcurrent && Fill(s, now).maxRetries == s.maxRetries
  {
    StartAllFrame(s.(queue := FillLeaves(s, now)), FillStarts(s, now));
  }

  /** Only the settings change the limits. */
  lemma LimitChange(s: State, action: Action, now: Time)
    requires Next(s, action, now).Some?
    ensures var after := Next(s, action, now).value;
            && (if action.ApplySettings? && !s.closed
                then after.maxConcurrent == action.maxConcurrent && after.maxRetries == action.maxRetries
                else after.maxConcurrent == s.maxConcurrent && after.maxRetries == s.maxRetries)
  {
    hide Update, Fill;
    UpdateLimits(s, action, now);
    FillLimits(Update(s, action, now).value.state, now);
  }

  lemma FillAges(s: State, now: Time)
    ensures Fill(s, now).generation == if s.closed then s.generation else s.generation + 1
    ensures s.closed ==> Fill(s, now) == s
  {
    StartAllFrame(s.(queue := FillLeaves(s, now)), FillStarts(s, now));
  }

  lemma UpdateAges(s: State, action: Action, now: Time)
    requires Update(s, action, now).Some?
    ensures var (after, fills) := (Update(s, action, now).value.state, Update(s, action, now).value.fills);
            && s.generation <= after.generation
            && (after.timer != s.timer ==> s.generation < after.generation || (fills && !after.closed))
  {
    hide EarliestPlan, Without, PrepareResume, PrepareManualRetry, NewRequest, EndUpdate, ProgressUpdate, Reconciled;
    ReportKeepsTimer(s, action);
  }

  lemma ReportKeepsTimer(s: State, action: Action)
    ensures action.Progress? ==>
              var after := ProgressUpdate(s, action.id, action.token, action.downloaded, action.total,
                                          action.checkpoint);
              after.timer == s.timer && after.generation == s.generation
    ensures action.ExitRun? && action.id in s.tasks && action.id in s.requests ==>
              forall now ::
                var after := EndUpdate(DropRun(s, action.id, action.token), action.id, action.ending, action.baseDelay,
                                       now);
                            after.timer == s.timer && after.generation == s.generation
  {
  }

  /** No action makes the generation smaller, and one that changes the timer makes it larger. */
  lemma ChangedTimerIsNewer(s: State, action: Action, now: Time)
    requires Next(s, action, now).Some?
    ensures var after := Next(s, action, now).value;
            s.generation <= after.generation && (after.timer != s.timer ==> s.generation < after.generation)
  {
    hide Update, Fill;
    UpdateAges(s, action, now);
    FillAges(Update(s, action, now).value.state, now);
  }

  lemma {:induction false} TimersAge(from: State, actions: seq<(Action, Time)>, to: State)
    requires Leads(from, actions, to)
    ensures from.generation <= to.generation && (to.timer != from.timer ==> from.generation < to.generation)
    decreases |actions|
  {
    if actions != [] {
      hide Next;
      ChangedTimerIsNewer(from, actions[0].0, actions[0].1);
      TimersAge(Next(from, actions[0].0, actions[0].1).value, actions[1..], to);
    }
  }

  /**
   A timer that was stopped or replaced stays stale for ever: whatever happened since, and whatever timers
   were armed meanwhile, its callback changes nothing.
   */
  lemma StaleWakeIsIgnored(armed: State, between: seq<(Action, Time)>, changed: State, since: seq<(Action, Time)>,
                           s: State, now: Time)
    requires Inv(armed) && armed.timer.Some?
    requires Leads(armed, between, changed) && changed.timer != armed.timer && Leads(changed, since, s)
    ensures Next(s, Wake(armed.timer.value.generation), now) == Some(s)
  {
    hide Fill;
    TimersAge(armed, between, changed);
    TimersAge(changed, since, s);
  }

  /**
   Whatever starts a run, the task stood in the queue when the slots were filled, its planned start had come, and it is
   now downloading.
   */
  lemma NothingStartsEarly(s: State, action: Action, now: Time, id: TaskID)
    requires Inv(s) && Next(s, action, now).Some?
    requires StartsRun(s, Next(s, action, now).value, id)
    ensures var after := Next(s, action, now).value;
            id in after.tasks && after.tasks[id].state == Downloading && !InFuture(after.tasks[id], now)
    ensures var updated := Update(s, action, now).value.state; id in updated.queue && IsQueued(updated, id)
  {
    hide Update, OpenInv;
    var updated := Update(s, action, now).value.state;
    UpdateStartsNothing(s, action, now);
    if s.closed {
      ClosedStays(s, action, now);
      FillNeedsOpen(updated, now);
    } else {
      UpdateKeeps(s, action, now);
      FillSpends(updated, now, id);
      assert !StartsRun(s, updated, id);
      FillStartsDue(updated, now, id);
    }
  }

  lemma FillStartsDue(s: State, now: Time, id: TaskID)
    requires Inv(s) && StartsRun(s, Fill(s, now), id)
    ensures id in Fill(s, now).tasks && Fill(s, now).tasks[id].state == Downloading
            && !InFuture(Fill(s, now).tasks[id], now)
    ensures id in s.queue && IsQueued(s, id)
  {
    if !s.closed {
      FillEffect(s, now);
      FillLosesNothing(s, now);
      FillSplitsQueue(s, now);
      assert id in Members(FillStarts(s, now));
    }
  }

  // ---------------------------------------------------------------------
  // Retries end

  /** The transfers a task may still start without the user. */
  function TransfersLeft(s: State, id: TaskID): nat {
    if id !in s.tasks then 0
    else
      var left := if s.tasks[id].retryCount < s.maxRetries then s.maxRetries - s.tasks[id].retryCount else 0;
      match s.tasks[id].state
      case Queued => left + 1
      case Retrying => left + 1
      case Downloading => left
      case _ => 0
  }

  /** The action starts a run of the task. */
  predicate StartsRun(s: State, after: State, id: TaskID) {
    id in after.runs && (id !in s.runs || s.runs[id] != after.runs[id])
  }

  /** An action the user takes on this task, or one that changes the retry budget. */
  predicate Interferes(action: Action, id: TaskID) {
    match action
    case Create(other, _, _) => other == id
    case Resume(other, _, _) => other == id
    case Retry(other, _, _) => other == id
    case ApplySettings(_, _) => true
    case _ => false
  }

  /** Smaller after each change of a task's state; 0 when only the user can make the task go on. */
  function Rank(s: State, id: TaskID): nat {
    if id !in s.tasks then 0
    else
      match s.tasks[id].state
      case Queued => 3 * TransfersLeft(s, id)
      case Retrying => 3 * TransfersLeft(s, id) + 1
      case Downloading => 3 * TransfersLeft(s, id) + 2
      case _ => 0
  }

  predicate SameState(s: State, after: State, id: TaskID) {
    (id in s.tasks <==> id in after.tasks) && (id in s.tasks ==> s.tasks[id].state == after.tasks[id].state)
  }

  /** Started or not, the task has at most as many transfers and a smaller rank, unless its state is the same. */
  predicate Spends(s: State, after: State, id: TaskID) {
    && TransfersLeft(after, id) + (if StartsRun(s, after, id) then 1 else 0) <= TransfersLeft(s, id)
    && (SameState(s, after, id) || Rank(after, id) < Rank(s, id) || Rank(after, id) == 0)
    && Rank(after, id) <= Rank(s, id)
  }

  lemma SpendsThenFill(s: State, mid: State, now: Time, id: TaskID)
    requires Spends(s, mid, id) && !StartsRun(s, mid, id)
    requires Inv(mid)
    ensures Spends(s, Fill(mid, now), id)
  {
    FillSpends(mid, now, id);
  }

  /** A fill turns one of the task's remaining transfers into a started one, or leaves the task alone. */
  lemma FillSpends(s: State, now: Time, id: TaskID)
    requires Inv(s)
    ensures Spends(s, Fill(s, now), id)
    ensures TransfersLeft(Fill(s, now), id) + (if StartsRun(s, Fill(s, now), id) then 1 else 0) == TransfersLeft(s, id)
    ensures id in Fill(s, now).tasks <==> id in s.tasks
    ensures id in s.runs ==> id in Fill(s, now).runs && Fill(s, now).runs[id] == s.runs[id]
  {
    if !s.closed {
      FillEffect(s, now);
      FillSplitsQueue(s, now);
      FilledSpends(s, Fill(s, now), FillStarts(s, now), FillLeaves(s, now), id);
    }
  }

  lemma FilledSpends(s: State, after: State, starts: seq<TaskID>, leaves: seq<TaskID>, id: TaskID)
    requires OpenInv(s) && Filled(s, after, starts, leaves)
    requires forall id :: id in starts ==> id in s.queue
    ensures Spends(s, after, id)
    ensures TransfersLeft(after, id) + (if StartsRun(s, after, id) then 1 else 0) == TransfersLeft(s, id)
    ensures id in after.tasks <==> id in s.tasks
    ensures id in s.runs ==> id in after.runs && after.runs[id] == s.runs[id]
  {
    if id in Members(starts) {
      assert IsQueued(s, id) && id !in s.runs;
    }
  }

  lemma ExitSpends(s: State, id: TaskID, token: nat, ending: Ending, baseDelay: Delay, now: Time, other: TaskID)
    requires Inv(s) && (id, token) in s.live
    ensures Spends(s, ExitUpdate(s, id, token, ending, baseDelay, now), other)
  {
    hide OpenInv;
    var after := ExitUpdate(s, id, token, ending, baseDelay, now);
    assert after.runs.Keys <= s.runs.Keys;
  }

  /** The other tasks stay as they are. */
  lemma OtherTaskSpends(s: State, after: State, other: TaskID, id: TaskID)
    requires other != id && after.maxRetries == s.maxRetries && after.runs == s.runs
    requires id in s.tasks <==> id in after.tasks
    requires id in s.tasks ==> after.tasks[id] == s.tasks[id]
    ensures Spends(s, after, id)
  {
  }

  /** The task stays in its state, or becomes one that only the user can make go on. */
  lemma SettlingSpends(s: State, after: State, id: TaskID)
    requires after.maxRetries == s.maxRetries && after.runs == s.runs
    requires id in after.tasks ==> id in s.tasks
    requires id in after.tasks ==>
               || (after.tasks[id].state == s.tasks[id].state && after.tasks[id].retryCount == s.tasks[id].retryCount)
               || after.tasks[id].state == Paused || IsTerminalState(after.tasks[id].state)
    ensures Spends(s, after, id)
  {
  }

  lemma RetryDueSpends(s: State, other: TaskID, at: Time, id: TaskID)
    ensures Spends(s, RetryDueUpdate(s, other, at), id)
  {
    hide Without;
  }

  lemma UpdateSpends(s: State, action: Action, now: Time, id: TaskID)
    requires Inv(s) && Update(s, action, now).Some? && !Interferes(action, id)
    ensures Spends(s, Update(s, action, now).value.state, id)
  {
    hide Spends, OpenInv, ExitUpdate, RetryDueUpdate;
    var after := Update(s, action, now).value.state;
    match action {
      case Create(other, _, _) => OtherTaskSpends(s, after, other, id);
      case Resume(other, _, _) => OtherTaskSpends(s, after, other, id);
      case Retry(other, _, _) => OtherTaskSpends(s, after, other, id);
      case ExitRun(other, token, ending, baseDelay) => ExitSpends(s, other, token, ending, baseDelay, now, id);
      case RetryDue(other, at) => RetryDueSpends(s, other, at, id);
      case _ => SettlingSpends(s, after, id);
    }
  }

  /** Without the user, every action spends the task's transfers and never adds any. */
  lemma StepSpends(s: State, action: Action, now: Time, id: TaskID)
    requires Inv(s) && Next(s, action, now).Some? && !Interferes(action, id)
    ensures Spends(s, Next(s, action, now).value, id)
  {
    hide Fill, OpenInv, Spends, Update, Interferes;
    var updated := Update(s, action, now).value.state;
    UpdateSpends(s, action, now, id);
    if s.closed {
      ClosedStays(s, action, now);
      FillNeedsOpen(updated, now);
    } else {
      UpdateStartsNothing(s, action, now);
      UpdateKeeps(s, action, now);
      SpendsThenFill(s, updated, now, id);
    }
  }

  /** How often a run of the task starts along the actions. */
  ghost function CountStarts(from: State, actions: seq<(Action, Time)>, id: TaskID): nat
    decreases |actions|
  {
    if actions == [] || Next(from, actions[0].0, actions[0].1).None? then 0
    else
      var next := Next(from, actions[0].0, actions[0].1).value;
      (if StartsRun(from, next, id) then 1 else 0) + CountStarts(next, actions[1..], id)
  }

  /**
   Left to itself, a task transfers at most once more than its remaining retries: after its creation, a
   resume or a manual retry that is at most the retry budget plus one.
   */
  lemma {:induction false} RetriesAreBounded(from: State, actions: seq<(Action, Time)>, to: State, id: TaskID)
    requires Inv(from) && Leads(from, actions, to)
    requires forall i :: 0 <= i < |actions| ==> !Interferes(actions[i].0, id)
    ensures CountStarts(from, actions, id) + TransfersLeft(to, id) <= TransfersLeft(from, id)
    decreases |actions|
  {
    if actions != [] {
      hide Next, Inv, Interferes;
      var (action, now) := actions[0];
      StepSpends(from, action, now, id);
      StepKeeps(from, action, now);
      RetriesAreBounded(Next(from, action, now).value, actions[1..], to, id);
    }
  }

  /**
   A saved creation, resume or manual retry gives the task its whole budget, the start in the same action included.
   */
  lemma UserGivesBudget(s: State, action: Action, now: Time)
    requires Inv(s) && Next(s, action, now).Some?
    requires (action.Create? || action.Resume? || action.Retry?) && action.saved
    ensures var after := Next(s, action, now).value;
            TransfersLeft(after, action.id) + (if StartsRun(s, after, action.id) then 1 else 0) == s.maxRetries + 1
  {
    hide Fill, OpenInv, Spends;
    UpdateKeeps(s, action, now);
    FillSpends(Update(s, action, now).value.state, now, action.id);
  }

  /**
   From its creation, a resume or a manual retry on, until the user takes it up again or changes the budget, a task
   is transferred at most once more than the retry budget allows retries.
   */
  lemma TransfersAreBounded(s: State, action: Action, now: Time, actions: seq<(Action, Time)>, to: State)
    requires Inv(s) && Next(s, action, now).Some?
    requires (action.Create? || action.Resume? || action.Retry?) && action.saved
    requires Leads(Next(s, action, now).value, actions, to)
    requires forall i :: 0 <= i < |actions| ==> !Interferes(actions[i].0, action.id)
    ensures CountStarts(s, [(action, now)] + actions, action.id) <= s.maxRetries + 1
  {
    hide Next, Inv, Interferes, TransfersLeft;
    UserGivesBudget(s, action, now);
    StepKeeps(s, action, now);
    RetriesAreBounded(Next(s, action, now).value, actions, to, action.id);
    assert ([(action, now)] + actions)[1..] == actions;
  }

  /** Neither queued nor running. */
  predicate Rests(tasks: map<TaskID, Task>, id: TaskID) {
    id in tasks ==> tasks[id].state != Downloading && tasks[id].state != Queued
  }

  lemma RestsAfterOther(tasks: map<TaskID, Task>, other: TaskID, task: Task, id: TaskID)
    requires Rests(tasks, id) && (other != id || (task.state != Downloading && task.state != Queued))
    ensures Rests(tasks[other := task], id)
  {
  }

  lemma DeleteRests(tasks: map<TaskID, Task>, other: TaskID, id: TaskID)
    requires Rests(tasks, id)
    ensures Rests(tasks - {other}, id)
  {
  }

  lemma RequeueRests(s: State, other: TaskID, progress: int, id: TaskID)
    requires Rests(s.tasks, id) && other in s.tasks && other != id
    ensures Rests(s.tasks[other := RequeuedByUser(s.tasks[other], progress)], id)
    ensures Rests(s.tasks[other := RequeuedByUser(s.tasks[other], progress).(state := Paused)], id)
  {
  }

  lemma ExitRests(s: State, other: TaskID, token: nat, ending: Ending, baseDelay: Delay, now: Time, id: TaskID)
    requires id in s.tasks && s.tasks[id].state == Retrying
    ensures Rests(ExitUpdate(s, other, token, ending, baseDelay, now).tasks, id)
  {
    hide PrepareAutomaticRetry, RetryDelay;
  }

  /** Closing the manager requeues nothing. */
  lemma CloseRests(s: State, now: Time, disks: map<TaskID, Disk>, id: TaskID)
    requires id in s.tasks && s.tasks[id].state == Retrying
    ensures Rests(CloseUpdate(s, now).tasks, id)
    ensures Rests(FinishCloseUpdate(s, disks).tasks, id)
  {
  }

  lemma ReportRests(s: State, other: TaskID, token: nat, downloaded: int, total: int,
                    checkpoint: Option<TransferCheckpoint>, disk: Disk, id: TaskID)
    requires id in s.tasks && s.tasks[id].state == Retrying
    ensures Rests(ProgressUpdate(s, other, token, downloaded, total, checkpoint).tasks, id)
    ensures other in s.tasks && other in s.requests ==> Rests(Reconciled(s, other, disk), id)
  {
  }

  /** The retry of this task is due in this action. */
  predicate RetryIsDue(s: State, action: Action, now: Time, id: TaskID)
    requires id in s.tasks
  {
    action.RetryDue? && action.id == id && s.tasks[id].nextRetryAt == Some(action.at) && action.at <= now
  }

  lemma RetryDueRests(s: State, other: TaskID, at: Time, id: TaskID)
    requires id in s.tasks && s.tasks[id].state == Retrying
    ensures var after := RetryDueUpdate(s, other, at);
            && id in after.tasks && after.tasks[id].state != Downloading
            && (Rests(after.tasks, id) || (other == id && s.tasks[id].nextRetryAt == Some(at)))
  {
  }

  lemma UpdateRests(s: State, action: Action, now: Time, id: TaskID)
    requires Update(s, action, now).Some? && id in s.tasks && s.tasks[id].state == Retrying && !action.RetryDue?
    ensures Rests(Update(s, action, now).value.state.tasks, id)
  {
    assert Rests(s.tasks, id);
    hide Rests, ExitUpdate, CloseUpdate, FinishCloseUpdate, ProgressUpdate, Reconciled, EarliestPlan, Without,
         PrepareResume,
      PrepareManualRetry;
    match action {
      case Create(other, input, _) =>
        RestsAfterOther(s.tasks, other, NewTask(input.expectedSize, input.scheduledAt), id);
      case Pause(other) => RestsAfterOther(s.tasks, other, PausedTask(s.tasks[other]), id);
      case FinishPause(other, disk) => ReportRests(s, other, 0, 0, 0, None, disk, id);
      case Resume(other, _, _) => RequeueRests(s, other, s.tasks[other].downloaded, id);
      case Retry(other, disk, saved) => RequeueRests(s, other, RetryPlan(s, other, disk).value.1, id);
      case Cancel(other) => RestsAfterOther(s.tasks, other, CanceledTask(s.tasks[other]), id);
      case Delete(other, _) => DeleteRests(s.tasks, other, id);
      case Progress(other, token, downloaded, total, checkpoint) =>
        ReportRests(s, other, token, downloaded, total, checkpoint, Disk(None, None, false), id);
      case ExitRun(other, token, ending, baseDelay) => ExitRests(s, other, token, ending, baseDelay, now, id);
      case Close => CloseRests(s, now, map[], id);
      case FinishClose(disks) => CloseRests(s, now, disks, id);
      case _ =>
    }
  }

  /** A task waiting for a retry returns to the queue only when its own moment has come. */
  lemma RetryWaitsForItsMoment(s: State, action: Action, now: Time, id: TaskID)
    requires Inv(s) && Next(s, action, now).Some?
    requires id in s.tasks && s.tasks[id].state == Retrying
    requires id in Next(s, action, now).value.tasks
    requires var state := Next(s, action, now).value.tasks[id].state; state == Queued || state == Downloading
    ensures RetryIsDue(s, action, now, id)
  {
    hide Fill, OpenInv, Update;
    var updated := Update(s, action, now).value.state;
    if action.RetryDue? {
      RetryDueRests(s, action.id, action.at, id);
      DueIsDue(s, action, now);
    } else {
      UpdateRests(s, action, now, id);
    }
    if s.closed {
      ClosedStays(s, action, now);
      FillNeedsOpen(updated, now);
    } else {
      UpdateKeeps(s, action, now);
      FillSpends(updated, now, id);
      if updated.tasks[id].state != Queued {
        FillKeepsTheRest(updated, now, id);
      }
    }
  }

  lemma DueIsDue(s: State, action: Action, now: Time)
    requires action.RetryDue? && Update(s, action, now).Some?
    ensures action.at <= now
    ensures Update(s, action, now).value.state == RetryDueUpdate(s, action.id, action.at)
  {
  }

  /** A fill leaves every task that is not queued as it is. */
  lemma FillKeepsTheRest(s: State, now: Time, id: TaskID)
    requires Inv(s) && id in s.tasks && s.tasks[id].state != Queued
    ensures id in Fill(s, now).tasks && Fill(s, now).tasks[id] == s.tasks[id]
    ensures id !in s.runs ==> id !in Fill(s, now).runs
  {
    if !s.closed {
      FillEffect(s, now);
      FillSplitsQueue(s, now);
      assert id !in FillStarts(s, now);
    }
  }

  /** A transient failure within the budget is planned again after the capped exponential delay. */
  lemma TransientFailureIsPlanned(s: State, id: TaskID, token: nat, disk: Disk, baseDelay: Delay, now: Time)
    requires Inv(s) && !s.closed && (id, token) in s.live
    requires s.tasks[id].state == Downloading && s.tasks[id].retryCount < s.maxRetries
    ensures var after := Next(s, ExitRun(id, token, FailsTransiently(disk), baseDelay), now).value;
            && id in after.tasks && after.tasks[id].state == Retrying && id !in after.runs
            && after.tasks[id].retryCount == s.tasks[id].retryCount + 1
            && after.tasks[id].nextRetryAt == Some(now + RetryDelay(baseDelay, s.tasks[id].retryCount))
  {
    hide Fill;
    var exited := ExitUpdate(s, id, token, FailsTransiently(disk), baseDelay, now);
    ExitKeeps(s, id, token, FailsTransiently(disk), baseDelay, now);
    FillKeepsTheRest(exited, now, id);
  }
}
