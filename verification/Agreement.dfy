/**
 The scheduler and the transfer protocol describe the same tasks. Every
 action of the scheduler on a task is the step of the protocol of that name
 and leaves the protocols of all other tasks where they are; every step of a
 transfer is a progress report to the scheduler, or one it does not see.
 */
module Agreement {
  import opened Basics
  import opened Checkpoints
  import opened Tasks
  import P = TransferProtocol
  import S = TransferSafety
  import opened SchedulerSpec
  import opened SchedulerSafety
  import opened SchedulerTheorems

  /** The operation that holds the lock, as this task sees it. */
  function OperationOn(s: State, id: TaskID): P.Operation {
    if s.closed then P.Closing
    else
      match s.hold
      case Free => P.Operation.Idle
      case PauseHold(other) => if other == id then P.Pausing else P.Operation.Idle
      case CancelHold(other) => if other == id then P.Canceling else P.Operation.Idle
  }

  /** The memory of the protocol `c` is what the scheduler knows about the task. */
  ghost predicate Projects(s: State, id: TaskID, c: P.Cell) {
    && id in s.tasks && id in s.requests && c.memory.Up?
    && c.memory.task == s.tasks[id] && c.memory.request == s.requests[id]
    && (c.memory.run.Some? <==> id in s.runs)
    && c.memory.operation == OperationOn(s, id)
  }

  function OutcomeOf(ending: Ending): P.Outcome {
    match ending
    case Completes(size) => P.Success(size)
    case Interrupts => P.Failure(P.Interrupted)
    case FailsTransiently(_) => P.Failure(P.Transient)
    case FailsForGood => P.Failure(P.Permanent)
  }

  /**
   What the scheduler does not see of an action: whether the store took it, and whether a deletion asks for the file.
   */
  datatype Unseen = Unseen(saved: bool, deleteFile: bool)

  /** The step of the protocol that an action on the task is. */
  function StepOf(s: State, action: Action, unseen: Unseen, now: Time, id: TaskID): Option<P.Event>
    requires id in s.tasks
  {
    match action
    case Pause(other) => if other == id then Some(P.Event.Pause) else None
    case FinishPause(other, _) => if other == id then Some(P.Event.FinishPause(unseen.saved)) else None
    case Resume(other, _, saved) => if other == id then Some(P.Event.Resume(saved)) else None
    case Retry(other, _, saved) => if other == id then Some(P.Event.RetryNow(saved)) else None
    case Cancel(other) => if other == id then Some(P.Event.Cancel(unseen.saved)) else None
    case FinishCancel(other) => if other == id then Some(P.Event.FinishCancel) else None
    case ExitRun(other, _, _, baseDelay) =>
      if other == id then Some(P.Event.ExitRun(s.maxRetries, now + RetryDelay(baseDelay, s.tasks[id].retryCount)))
      else None
    case RetryDue(other, at) => if other == id && RetryStillWanted(s, id, at) then Some(P.Event.RetryDue) else None
    case Delete(other, removed) => if other == id then Some(P.Event.Delete(unseen.deleteFile, removed)) else None
    case Close => Some(P.Event.Close(now))
    case FinishClose(_) => Some(P.Event.FinishClose(unseen.saved))
    case _ => None
  }

  /** The action found the files, and the ending of the run, that the protocol has. */
  predicate Observes(action: Action, id: TaskID, c: P.Cell)
    requires c.memory.Up?
  {
    match action
    case FinishPause(other, disk) => other == id ==> disk == c.disk
    case Resume(other, disk, _) => other == id ==> disk == c.disk
    case Retry(other, disk, _) => other == id ==> disk == c.disk
    case ExitRun(other, _, ending, _) =>
      other == id ==>
        && c.memory.run.Some? && c.memory.run.value.phase == P.Returned(OutcomeOf(ending))
        && (ending.FailsTransiently? ==> ending.disk == c.disk)
    case _ => true
  }

  /**
   The task goes on existing, and what the action does to it is not a part of a larger step: its creation and
   removal, its own reports and the end of a shutdown are treated on their own below.
   */
  predicate GoesOn(action: Action, id: TaskID) {
    match action
    case Create(other, _, _) => other != id
    case Delete(other, removed) => other == id ==> !removed
    case Progress(other, _, _, _, _) => other != id
    case FinishClose(_) => false
    case _ => true
  }

  /** One step of the protocol, or none. */
  ghost predicate Moves(world: World, c: P.Cell, event: Option<P.Event>, after: P.Cell) {
    if event.None? then after == c else P.Next(world, c, event.value) == Some(after)
  }

  function Moved(world: World, c: P.Cell, event: Option<P.Event>): P.Cell {
    if event.Some? && P.Next(world, c, event.value).Some? then P.Next(world, c, event.value).value else c
  }

  lemma PauseAgrees(world: World, s: State, id: TaskID, other: TaskID, now: Time, c: P.Cell)
    requires Projects(s, id, c) && MayPause(s, other)
    ensures if other == id
            then P.Next(world, c, P.Event.Pause).Some?
              && Projects(PauseUpdate(s, other, now), id, P.Next(world, c, P.Event.Pause).value)
            else Projects(PauseUpdate(s, other, now), id, c)
  {
    hide EarliestPlan, Without;
  }

  lemma FinishPauseAgrees(world: World, s: State, id: TaskID, other: TaskID, disk: Disk, saved: bool, c: P.Cell)
    requires Projects(s, id, c) && !s.closed && s.hold == PauseHold(other) && other !in s.runs && other in s.tasks
    requires other in s.requests
    requires other == id ==> disk == c.disk
    ensures var after := s.(hold := Free, tasks := Reconciled(s, other, disk));
            if other == id
            then P.Next(world, c, P.Event.FinishPause(saved)).Some?
              && Projects(after, id, P.Next(world, c, P.Event.FinishPause(saved)).value)
            else Projects(after, id, c)
  {
    hide PartialProgress;
  }

  lemma ResumeAgrees(world: World, s: State, id: TaskID, other: TaskID, disk: Disk, saved: bool, c: P.Cell)
    requires Projects(s, id, c) && ResumePlan(s, other, disk).Some? && (other == id ==> disk == c.disk)
    ensures var plan := ResumePlan(s, other, disk).value;
            var after := if saved then RequeueUpdate(s, other, s.tasks[other].downloaded, plan)
                         else UnsavedResume(s, other, plan);
            if other == id
            then P.Next(world, c, P.Event.Resume(saved)).Some?
              && Projects(after, id, P.Next(world, c, P.Event.Resume(saved)).value)
            else Projects(after, id, c)
  {
    hide PrepareResume, Without;
  }

  lemma RetryAgrees(world: World, s: State, id: TaskID, other: TaskID, disk: Disk, saved: bool, c: P.Cell)
    requires Projects(s, id, c) && RetryPlan(s, other, disk).Some? && (other == id ==> disk == c.disk)
    ensures var plan := RetryPlan(s, other, disk).value;
            var after := if saved then RequeueUpdate(s, other, plan.1, plan.0) else s;
            if other == id
            then P.Next(world, c, P.Event.RetryNow(saved)).Some?
              && Projects(after, id, P.Next(world, c, P.Event.RetryNow(saved)).value)
            else Projects(after, id, c)
  {
    hide PrepareManualRetry, Without;
  }

  lemma CancelAgrees(world: World, s: State, id: TaskID, other: TaskID, saved: bool, now: Time, c: P.Cell)
    requires Projects(s, id, c) && MayCancel(s, other)
    ensures if other == id
            then P.Next(world, c, P.Event.Cancel(saved)).Some?
                 && Projects(CancelUpdate(s, other, now), id, P.Next(world, c, P.Event.Cancel(saved)).value)
            else Projects(CancelUpdate(s, other, now), id, c)
  {
    hide EarliestPlan, Without;
  }

  lemma FinishCancelAgrees(world: World, s: State, id: TaskID, other: TaskID, c: P.Cell)
    requires Projects(s, id, c) && !s.closed && s.hold == CancelHold(other) && other !in s.runs
    ensures if other == id
            then P.Next(world, c, P.Event.FinishCancel).Some?
              && Projects(s.(hold := Free), id, P.Next(world, c, P.Event.FinishCancel).value)
            else Projects(s.(hold := Free), id, c)
  {
  }

  lemma ProjectsKnows(s: State, id: TaskID, c: P.Cell)
    requires Projects(s, id, c)
    ensures id in s.tasks && id in s.requests && c.memory.Up?
  {
  }

  /** The run of the task itself leaves. */
  lemma OwnExitAgrees(s: State, id: TaskID, token: nat, ending: Ending, baseDelay: Delay, now: Time, c: P.Cell)
    requires Projects(s, id, c) && id in s.runs && s.runs[id] == token
    requires ending.FailsTransiently? ==> ending.disk == c.disk
    ensures var retryAt := now + RetryDelay(baseDelay, s.tasks[id].retryCount);
            Projects(ExitUpdate(s, id, token, ending, baseDelay, now), id,
                     P.Exit(c, OutcomeOf(ending), s.maxRetries, retryAt))
  {
    hide PrepareAutomaticRetry, RetryDelay;
    if s.tasks[id].state == Downloading {
      match ending {
        case Completes(_) =>
        case Interrupts =>
        case FailsTransiently(_) =>
        case FailsForGood =>
      }
    }
  }

  lemma ExitAgrees(world: World, s: State, id: TaskID, other: TaskID, token: nat, ending: Ending, baseDelay: Delay,
                   now: Time, c: P.Cell)
    requires Projects(s, id, c) && other in s.runs && s.runs[other] == token
    requires other == id ==>
               && c.memory.run.Some? && c.memory.run.value.phase == P.Returned(OutcomeOf(ending))
               && (ending.FailsTransiently? ==> ending.disk == c.disk)
    ensures var after := ExitUpdate(s, other, token, ending, baseDelay, now);
            if other == id
            then
              var exit := P.Event.ExitRun(s.maxRetries, now + RetryDelay(baseDelay, s.tasks[id].retryCount));
              P.Next(world, c, exit).Some? && Projects(after, id, P.Next(world, c, exit).value)
            else Projects(after, id, c)
  {
    hide ExitUpdate, Projects, RetryDelay, P.Exit, P.Next;
    ProjectsKnows(s, id, c);
    if other == id {
      OwnExitAgrees(s, id, token, ending, baseDelay, now, c);
      ExitStepExits(world, c, OutcomeOf(ending), s.maxRetries, now + RetryDelay(baseDelay, s.tasks[id].retryCount));
    } else {
      ExitLeavesOthers(s, id, other, token, ending, baseDelay, now);
      OthersStay(s, ExitUpdate(s, other, token, ending, baseDelay, now), id, c);
    }
  }

  lemma ExitStepExits(world: World, c: P.Cell, outcome: P.Outcome, maxRetries: nat, retryAt: Time)
    requires c.memory.Up? && c.memory.run.Some? && c.memory.run.value.phase == P.Returned(outcome)
    ensures P.Next(world, c, P.Event.ExitRun(maxRetries, retryAt)) == Some(P.Exit(c, outcome, maxRetries, retryAt))
  {
  }

  lemma ExitLeavesOthers(s: State, id: TaskID, other: TaskID, token: nat, ending: Ending, baseDelay: Delay, now: Time)
    requires id in s.tasks && id in s.requests && other != id
    ensures var after := ExitUpdate(s, other, token, ending, baseDelay, now);
            && id in after.tasks && id in after.requests
            && after.tasks[id] == s.tasks[id] && after.requests[id] == s.requests[id]
            && (id in after.runs <==> id in s.runs) && after.hold == s.hold && after.closed == s.closed
  {
    hide EndedTask, RetryDelay;
  }

  lemma RetryDueAgrees(world: World, s: State, id: TaskID, other: TaskID, at: Time, c: P.Cell)
    requires Projects(s, id, c)
    ensures if other == id && RetryStillWanted(s, id, at)
            then P.Next(world, c, P.Event.RetryDue).Some?
              && Projects(RetryDueUpdate(s, other, at), id, P.Next(world, c, P.Event.RetryDue).value)
            else Projects(RetryDueUpdate(s, other, at), id, c)
  {
    RetryDueFields(s, other, at);
    hide RetryDueUpdate;
    if !(other == id && RetryStillWanted(s, id, at)) {
      OthersStay(s, RetryDueUpdate(s, other, at), id, c);
    }
  }

  lemma RetryDueFields(s: State, id: TaskID, at: Time)
    ensures var after := RetryDueUpdate(s, id, at);
            && after.tasks
              == (if RetryStillWanted(s, id, at) then s.tasks[id := RequeuedAfterDelay(s.tasks[id])] else s.tasks)
            && after.requests == s.requests && after.runs == s.runs && after.hold == s.hold && after.closed == s.closed
  {
    hide Without;
  }

  lemma CloseAgrees(world: World, s: State, id: TaskID, now: Time, c: P.Cell)
    requires Projects(s, id, c) && SchedulerSpec.Idle(s)
    ensures P.Next(world, c, P.Event.Close(now)).Some?
            && Projects(CloseUpdate(s, now), id, P.Next(world, c, P.Event.Close(now)).value)
  {
  }

  /** A report reaches the task as the protocol delivers it. */
  lemma ReportAgrees(s: State, id: TaskID, token: nat, downloaded: int, total: int,
                     checkpoint: Option<TransferCheckpoint>, c: P.Cell)
    requires Inv(s) && Projects(s, id, c) && (id, token) in s.live
    ensures Projects(ProgressUpdate(s, id, token, downloaded, total, checkpoint), id,
                     P.Deliver(c, downloaded, total, checkpoint))
  {
    hide AcceptsReport;
  }

  /** A fill is the start step for the tasks it starts, and nothing for the others. */
  lemma FillAgrees(world: World, s: State, id: TaskID, now: Time, c: P.Cell)
    requires Inv(s) && !s.closed && Projects(s, id, c)
    ensures if id in FillStarts(s, now)
            then P.Next(world, c, P.StartRun).Some? && Projects(Fill(s, now), id, P.Next(world, c, P.StartRun).value)
            else Projects(Fill(s, now), id, c)
  {
    hide Fill, Filled, Projects, P.Next;
    FillEffect(s, now);
    FillSplitsQueue(s, now);
    if id in FillStarts(s, now) {
      FilledStarts(world, s, Fill(s, now), FillStarts(s, now), FillLeaves(s, now), id, c);
    } else {
      FilledLeaves(s, Fill(s, now), FillStarts(s, now), FillLeaves(s, now), id, c);
    }
  }

  lemma FilledStarts(world: World, s: State, after: State, starts: seq<TaskID>, leaves: seq<TaskID>, id: TaskID,
                     c: P.Cell)
    requires OpenInv(s) && !s.closed && Projects(s, id, c) && Filled(s, after, starts, leaves)
    requires id in starts && id in s.queue
    ensures P.Next(world, c, P.StartRun).Some? && Projects(after, id, P.Next(world, c, P.StartRun).value)
  {
    assert id in Members(starts);
    assert IsQueued(s, id);
  }

  lemma FilledLeaves(s: State, after: State, starts: seq<TaskID>, leaves: seq<TaskID>, id: TaskID, c: P.Cell)
    requires Projects(s, id, c) && Filled(s, after, starts, leaves) && id !in starts
    ensures Projects(after, id, c)
  {
    assert id !in Members(starts);
    OthersStay(s, after, id, c);
  }

  /** Up to its fill, such an action is one step of the task's protocol, or none if it concerns another task. */
  lemma UpdateAgrees(world: World, s: State, action: Action, unseen: Unseen, now: Time, id: TaskID, c: P.Cell)
    requires Inv(s) && Projects(s, id, c) && Update(s, action, now).Some?
    requires GoesOn(action, id) && Observes(action, id, c)
    ensures var event := StepOf(s, action, unseen, now, id);
            && Moves(world, c, event, Moved(world, c, event))
            && Projects(Update(s, action, now).value.state, id, Moved(world, c, event))
  {
    hide OpenInv, ClosedInv, Projects, PauseUpdate, CancelUpdate, ExitUpdate, RetryDueUpdate, CloseUpdate,
         RequeueUpdate, UnsavedResume,
      Reconciled, P.Next;
    ProjectsKnows(s, id, c);
    if s.closed {
      ClosedHoldsNothing(s);
    }
    match action {
      case Create(other, input, saved) => OthersStay(s, Update(s, action, now).value.state, id, c);
      case Pause(other) => PauseAgrees(world, s, id, other, now, c);
      case FinishPause(other, disk) => FinishPauseAgrees(world, s, id, other, disk, unseen.saved, c);
      case Resume(other, disk, saved) => ResumeAgrees(world, s, id, other, disk, saved, c);
      case Retry(other, disk, saved) => RetryAgrees(world, s, id, other, disk, saved, c);
      case Cancel(other) => CancelAgrees(world, s, id, other, unseen.saved, now, c);
      case FinishCancel(other) => FinishCancelAgrees(world, s, id, other, c);
      case Delete(other, _) =>
        if other == id {
          FailedDeletionAgrees(world, s, id, unseen.deleteFile, c);
        } else {
          OthersStay(s, Update(s, action, now).value.state, id, c);
        }
      case ApplySettings(_, _) => OthersStay(s, Update(s, action, now).value.state, id, c);
      case Wake(_) => OthersStay(s, Update(s, action, now).value.state, id, c);
      case Progress(other, token, downloaded, total, checkpoint) =>
        OthersStay(s, ProgressUpdate(s, other, token, downloaded, total, checkpoint), id, c);
      case ExitRun(other, token, ending, baseDelay) =>
        LiveIsRunning(s, other, token);
        ExitAgrees(world, s, id, other, token, ending, baseDelay, now, c);
      case RetryDue(other, at) => RetryDueAgrees(world, s, id, other, at, c);
      case Close => CloseAgrees(world, s, id, now, c);
    }
  }

  lemma FailedDeletionAgrees(world: World, s: State, id: TaskID, deleteFile: bool, c: P.Cell)
    requires Projects(s, id, c) && MayDelete(s, id)
    ensures var event := P.Event.Delete(deleteFile, false);
            P.Next(world, c, event).Some? && Projects(s, id, P.Next(world, c, event).value)
  {
  }

  lemma LiveIsRunning(s: State, id: TaskID, token: nat)
    requires Inv(s) && (id, token) in s.live
    ensures id in s.runs && s.runs[id] == token
  {
  }

  lemma OthersStay(s: State, after: State, id: TaskID, c: P.Cell)
    requires Projects(s, id, c)
    requires id in after.tasks && id in after.requests && after.tasks[id] == s.tasks[id]
    requires after.requests[id] == s.requests[id]
    requires (id in after.runs <==> id in s.runs) && after.hold == s.hold && after.closed == s.closed
    ensures Projects(after, id, c)
  {
  }

  /** The start of the task's run by the fill that follows an action. */
  function FillSteps(effect: Effect, now: Time, id: TaskID): seq<P.Event> {
    if effect.fills && !effect.state.closed && id in FillStarts(effect.state, now) then [P.StartRun] else []
  }

  /** The steps of the task's protocol that an action is: its own step, and the start of its run by the fill. */
  function StepsOf(s: State, action: Action, effect: Effect, unseen: Unseen, now: Time, id: TaskID): seq<P.Event>
    requires id in s.tasks
  {
    var event := StepOf(s, action, unseen, now, id);
    (if event.Some? then [event.value] else []) + FillSteps(effect, now, id)
  }

  /** The protocol after these steps; what is not possible is left out. */
  function Performed(world: World, c: P.Cell, events: seq<P.Event>): P.Cell
    decreases |events|
  {
    if events == [] then c else Performed(world, Moved(world, c, Some(events[0])), events[1..])
  }

  lemma {:induction false} LeadsPerforms(world: World, own: Option<P.ByteRange>, c: P.Cell, events: seq<P.Event>,
                                         after: P.Cell)
    requires P.LeadsWith(world, own, c, events, after)
    ensures after == Performed(world, c, events)
    decreases |events|
  {
    if events != [] {
      hide P.Next, P.HonestTo;
      LeadsPerforms(world, own, P.Next(world, c, events[0]).value, events[1..], after);
    }
  }

  /**
   Such an action, in an open or a closed manager, is an honest run of at most two steps of the protocol of each
   task, whether or not the store takes what it saves.
   */
  lemma ActionsAreSteps(world: World, own: Option<P.ByteRange>, s: State, action: Action, unseen: Unseen, now: Time,
                        id: TaskID, c: P.Cell)
    requires Inv(s) && Projects(s, id, c) && Next(s, action, now).Some?
    requires GoesOn(action, id) && Observes(action, id, c)
    ensures id in s.tasks
    ensures var steps := StepsOf(s, action, Update(s, action, now).value, unseen, now, id);
            && |steps| <= 2 && P.LeadsWith(world, own, c, steps, Performed(world, c, steps))
            && Projects(Next(s, action, now).value, id, Performed(world, c, steps))
  {
    hide Update, Projects, OpenInv, ClosedInv, Fill, P.Next, P.LeadsWith, Performed;
    ProjectsKnows(s, id, c);
    var event := StepOf(s, action, unseen, now, id);
    var updated := Update(s, action, now).value;
    UpdateAgrees(world, s, action, unseen, now, id, c);
    UpdateKeepsInv(s, action, now);
    var after := Moved(world, c, event);
    var first := if event.Some? then [event.value] else [];
    StepsLead(world, own, c, event, after);
    LeadsPerforms(world, own, c, first, after);
    if updated.fills {
      if updated.state.closed {
        FillNeedsOpen(updated.state, now);
      } else {
        FillAgrees(world, updated.state, id, now, after);
        if id in FillStarts(updated.state, now) {
          ThenStarts(world, own, c, first, after);
        }
      }
    }
    assert first + [] == first;
  }

  lemma ThenStarts(world: World, own: Option<P.ByteRange>, c: P.Cell, first: seq<P.Event>, mid: P.Cell)
    requires P.LeadsWith(world, own, c, first, mid) && P.Next(world, mid, P.StartRun).Some?
    ensures P.LeadsWith(world, own, c, first + [P.StartRun], P.Next(world, mid, P.StartRun).value)
    ensures Performed(world, c, first + [P.StartRun]) == P.Next(world, mid, P.StartRun).value
  {
    var started := P.Next(world, mid, P.StartRun).value;
    P.EmptyRun(world, own, started);
    P.StepThen(world, own, mid, P.StartRun, started, [], started);
    assert [P.StartRun] + [] == [P.StartRun];
    P.RunThen(world, own, c, first, mid, [P.StartRun], started);
    LeadsPerforms(world, own, c, first + [P.StartRun], started);
  }

  lemma StepsLead(world: World, own: Option<P.ByteRange>, c: P.Cell, event: Option<P.Event>, after: P.Cell)
    requires Moves(world, c, event, after)
    requires event.Some? ==> !event.value.Respond? && !event.value.SegmentRespond?
    ensures P.LeadsWith(world, own, c, if event.Some? then [event.value] else [], after)
  {
    if event.Some? {
      assert [event.value][1..] == [];
    }
  }

  // ---------------------------------------------------------------------
  // What the transfer does

  /** What a step of the transfer goroutine reports: progress, total and checkpoint. */
  function ReportOf(c: P.Cell, event: P.Event): Option<(int, int, Option<TransferCheckpoint>)>
    requires c.memory.Up? && c.memory.run.Some?
  {
    var phase := c.memory.run.value.phase;
    match event
    case Announce => if phase.Body? then Some((phase.downloaded, phase.reply.total, None)) else None
    case Report => if phase.Body? then Some((phase.downloaded, phase.reply.total, None)) else None
    case EndOfBody => if phase.Body? then Some((phase.downloaded, phase.reply.total, None)) else None
    case SegmentAnnounce =>
      if phase.Segments? then Some((Downloaded(phase.checkpoint), phase.checkpoint.total, Some(phase.checkpoint)))
      else None
    case SegmentsSettle =>
      if phase.Segments? then Some((Downloaded(phase.checkpoint), phase.checkpoint.total, Some(phase.checkpoint)))
      else None
    case SegmentDeliver(i) =>
      if phase.Segments? && i < |phase.workers| && phase.workers[i].Reporting? then
        var snapshot := phase.workers[i].snapshot;
        Some((Downloaded(snapshot), snapshot.total, Some(snapshot)))
      else None
    case _ => None
  }

  /** The steps of the transfer goroutine before it leaves the manager. */
  predicate IsTransferStep(event: P.Event) {
    !P.IsManagerEvent(event) && !event.ExitRun? && !event.Restore?
  }

  /** What the manager knows: everything but how far the run is. */
  predicate SameKnowledge(a: P.Cell, b: P.Cell) {
    && a.memory.Up? && b.memory.Up? && a.memory.task == b.memory.task && a.memory.request == b.memory.request
    && (a.memory.run.Some? <==> b.memory.run.Some?) && a.memory.operation == b.memory.operation
  }

  lemma WorkerStepReports(world: World, c: P.Cell, event: P.Event)
    requires c.memory.Up? && c.memory.run.Some? && S.IsWorkerEvent(event) && P.RunNext(world, c, event).Some?
    ensures var after := P.RunNext(world, c, event).value;
            match ReportOf(c, event)
            case None => SameKnowledge(after, c)
            case Some((downloaded, total, checkpoint)) =>
              SameKnowledge(after, P.Deliver(c, downloaded, total, checkpoint))
  {
    hide AcceptsReport, P.AcceptSegment, Downloaded;
  }

  lemma TransferStepReports(world: World, c: P.Cell, event: P.Event)
    requires c.memory.Up? && c.memory.run.Some? && IsTransferStep(event) && P.RunNext(world, c, event).Some?
    ensures var after := P.RunNext(world, c, event).value;
            match ReportOf(c, event)
            case None => SameKnowledge(after, c)
            case Some((downloaded, total, checkpoint)) =>
              SameKnowledge(after, P.Deliver(c, downloaded, total, checkpoint))
  {
    if S.IsWorkerEvent(event) {
      WorkerStepReports(world, c, event);
    } else {
      hide AcceptsReport, P.AcceptReply, Downloaded, ValidCheckpoint, FreshCheckpoint;
    }
  }

  lemma SameKnowledgeProjects(s: State, id: TaskID, a: P.Cell, b: P.Cell)
    requires Projects(s, id, a) && SameKnowledge(b, a)
    ensures Projects(s, id, b)
  {
  }

  /**
   Every step of a task's transfer is the scheduler's progress action with what the step reports, or leaves
   everything the scheduler knows as it is; before a shutdown and during it.
   */
  lemma TransferStepsAreReports(world: World, s: State, id: TaskID, token: nat, now: Time, c: P.Cell, event: P.Event)
    requires Inv(s) && Projects(s, id, c) && (id, token) in s.live
    requires IsTransferStep(event) && P.Next(world, c, event).Some?
    ensures c.memory.Up? && c.memory.run.Some?
    ensures var after := P.Next(world, c, event).value;
            match ReportOf(c, event)
            case None => Projects(s, id, after)
            case Some((downloaded, total, checkpoint)) =>
              var next := Next(s, Progress(id, token, downloaded, total, checkpoint), now);
              next.Some? && Projects(next.value, id, after)
  {
    RunOfProjected(s, id, token, c);
    hide Inv, Projects, P.Deliver, ProgressUpdate, SameKnowledge, P.RunNext, P.Next, Next, ReportOf;
    StepIsRunStep(world, c, event);
    TransferStepReports(world, c, event);
    var after := P.Next(world, c, event).value;
    match ReportOf(c, event) {
      case None => SameKnowledgeProjects(s, id, c, after);
      case Some((downloaded, total, checkpoint)) =>
        ReportIsProgress(s, id, token, downloaded, total, checkpoint, now);
        ReportAgrees(s, id, token, downloaded, total, checkpoint, c);
        SameKnowledgeProjects(ProgressUpdate(s, id, token, downloaded, total, checkpoint), id,
                              P.Deliver(c, downloaded, total, checkpoint), after);
    }
  }

  lemma RunOfProjected(s: State, id: TaskID, token: nat, c: P.Cell)
    requires Inv(s) && Projects(s, id, c) && (id, token) in s.live
    ensures c.memory.Up? && c.memory.run.Some?
  {
    LiveIsRunning(s, id, token);
  }

  lemma StepIsRunStep(world: World, c: P.Cell, event: P.Event)
    requires c.memory.Up? && c.memory.run.Some? && IsTransferStep(event)
    ensures P.Next(world, c, event) == P.RunNext(world, c, event)
  {
  }

  lemma ReportIsProgress(s: State, id: TaskID, token: nat, downloaded: int, total: int,
                         checkpoint: Option<TransferCheckpoint>, now: Time)
    requires (id, token) in s.live
    ensures Next(s, Progress(id, token, downloaded, total, checkpoint), now)
            == Some(ProgressUpdate(s, id, token, downloaded, total, checkpoint))
  {
  }

  // ---------------------------------------------------------------------
  // Where a task comes from and where it ends

  /** A run that is told to stop is no business of the scheduler. */
  lemma SignalAgrees(world: World, s: State, id: TaskID, c: P.Cell)
    requires Projects(s, id, c) && P.Next(world, c, P.SignalRun).Some?
    ensures Projects(s, id, P.Next(world, c, P.SignalRun).value)
  {
  }

  /** A created task begins as its protocol begins. */
  lemma CreationAgrees(s: State, id: TaskID, input: NewDownload, now: Time)
    requires Inv(s) && MayCreate(s, id, input, now)
    ensures Projects(CreateUpdate(s, id, input), id,
                     P.Created(input.expectedSize, input.scheduledAt, input.acceptRanges, input.validator))
  {
    hide Without;
    NothingKnown(s, id);
  }

  /** A restored task begins as the restart step of its protocol leaves it. */
  lemma RestoreAgrees(world: World, s: State, record: Record, now: Time, c: P.Cell)
    requires OpenInv(s) && !s.closed && s.hold == Free && RestoreOne(s, record, now).Some?
    requires c.memory.Down? && c.store == Some(record.stored) && c.disk == record.disk
    ensures P.Next(world, c, P.Event.Restore(now, true)).Some?
    ensures Projects(RestoreOne(s, record, now).value, record.id, P.Next(world, c, P.Event.Restore(now, true)).value)
  {
    hide Without;
    NothingKnown(s, record.id);
  }

  /** A deleted task is gone in both; if the store fails it stays in both. */
  lemma DeletionAgrees(world: World, s: State, id: TaskID, removed: bool, deleteFile: bool, now: Time, c: P.Cell)
    requires Inv(s) && Projects(s, id, c) && Next(s, Action.Delete(id, removed), now).Some?
    ensures var event := P.Event.Delete(deleteFile, removed);
            var after := Next(s, Action.Delete(id, removed), now).value;
            && P.Next(world, c, event).Some?
            && (if removed
                then id !in after.tasks && P.Next(world, c, event).value.memory.Down?
                  && P.Next(world, c, event).value.store.None?
                else Projects(after, id, P.Next(world, c, event).value))
  {
    hide Without;
  }

  /** The last section of a shutdown stores for each paused task what its protocol stores. */
  lemma ShutdownAgrees(world: World, s: State, id: TaskID, disks: map<TaskID, Disk>, saved: bool, now: Time, c: P.Cell)
    requires Inv(s) && Projects(s, id, c) && Next(s, Action.FinishClose(disks), now).Some?
    requires id in disks && disks[id] == c.disk
    ensures var after := Next(s, Action.FinishClose(disks), now).value;
            && id in after.tasks && id in after.requests
            && P.Next(world, c, P.Event.FinishClose(saved)).Some?
            && P.Next(world, c, P.Event.FinishClose(saved)).value.memory.Down?
            && P.Next(world, c, P.Event.FinishClose(saved)).value.store
               == (if saved && s.tasks[id].state == TaskState.Paused
                   then Some(Stored(after.tasks[id], after.requests[id])) else c.store)
  {
    FinishCloseIsNext(s, disks, now);
    FinishCloseFields(s, id, disks);
    hide PartialProgress, Inv, FinishCloseUpdate, Next, P.Next;
    ProtocolFinishes(world, saved, c);
  }

  lemma FinishCloseIsNext(s: State, disks: map<TaskID, Disk>, now: Time)
    requires Next(s, Action.FinishClose(disks), now).Some?
    ensures s.closed && s.runs == map[] && Next(s, Action.FinishClose(disks), now) == Some(FinishCloseUpdate(s, disks))
  {
  }

  lemma ProtocolFinishes(world: World, saved: bool, c: P.Cell)
    requires c.memory.Up? && c.memory.operation == P.Closing && c.memory.run.None?
    ensures var progress := PartialProgress(c.memory.task, c.memory.request, c.disk);
            var counted := if progress.Some? then c.memory.task.(downloaded := progress.value) else c.memory.task;
            && P.Next(world, c, P.Event.FinishClose(saved)).Some?
            && P.Next(world, c, P.Event.FinishClose(saved)).value.memory.Down?
            && P.Next(world, c, P.Event.FinishClose(saved)).value.store
               == (if saved && c.memory.task.state == TaskState.Paused then Some(Stored(counted, c.memory.request))
                   else c.store)
  {
    hide PartialProgress;
  }

  lemma FinishCloseFields(s: State, id: TaskID, disks: map<TaskID, Disk>)
    requires id in s.tasks && id in s.requests && id in disks
    ensures var after := FinishCloseUpdate(s, disks);
            && id in after.tasks && after.tasks[id] == Reconciled(s, id, disks[id])[id] && after.requests == s.requests
  {
  }
}
