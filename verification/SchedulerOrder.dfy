/** First come, first served: what the queue promises over whole runs. */
module SchedulerOrder {
  import opened Basics
  import opened Checkpoints
  import opened Sequences
  import opened Tasks
  import opened SchedulerSpec
  import opened SchedulerSafety
  import opened SchedulerTheorems

  /** `first` is queued, and `second` does not stand before it. */
  ghost predicate Behind(queue: seq<TaskID>, first: TaskID, second: TaskID) {
    first in queue && !Before(queue, second, first)
  }

  lemma BehindWithout(queue: seq<TaskID>, id: TaskID, first: TaskID, second: TaskID)
    requires Behind(queue, first, second) && id != first
    ensures Behind(Without(queue, id), first, second)
  {
    FilterFacts(queue, other => other != id);
    BeforeMembers(Without(queue, id), second, first);
    if id != second {
      FilterKeepsOrder(queue, other => other != id, second, first);
    }
  }

  lemma BeforeMembers(queue: seq<TaskID>, x: TaskID, y: TaskID)
    ensures Before(queue, x, y) ==> x in queue && y in queue
  {
  }

  lemma BehindIsQueued(s: State, first: TaskID, second: TaskID)
    requires OpenInv(s) && Behind(s.queue, first, second)
    ensures IsQueued(s, first)
  {
  }

  lemma BehindEnqueued(s: State, id: TaskID, first: TaskID, second: TaskID)
    requires Behind(s.queue, first, second) && id != first
    ensures Behind(Enqueue(s, id).queue, first, second)
  {
    BehindWithout(s.queue, id, first, second);
    BeforeLast(Without(s.queue, id), id, second, first);
    assert first in Without(s.queue, id) + [id];
  }

  /** Up to the fill, an action that leaves a task queued leaves behind it who was behind it. */
  lemma UpdateKeepsBehind(s: State, action: Action, now: Time, effect: Effect, first: TaskID, second: TaskID)
    requires OpenInv(s) && !s.closed && Update(s, action, now) == Some(effect)
    requires Behind(s.queue, first, second) && first in effect.state.queue
    ensures Behind(effect.state.queue, first, second)
    ensures IsQueued(s, first) && first in effect.state.tasks && effect.state.tasks[first] == s.tasks[first]
  {
    hide OpenInv, Behind;
    BehindIsQueued(s, first, second);
    if action.Create? || action.Resume? || action.Retry? || action.RetryDue? {
      QueueingKeepsBehind(s, action, now, effect, first, second);
    } else if action.Pause? || action.Cancel? || action.Delete? {
      LeavingKeepsBehind(s, action, now, effect, first, second);
    } else {
      OthersKeepBehind(s, action, now, effect, first, second);
    }
  }

  lemma QueueingKeepsBehind(s: State, action: Action, now: Time, effect: Effect, first: TaskID, second: TaskID)
    requires !s.closed && Update(s, action, now) == Some(effect) && IsQueued(s, first) && Behind(s.queue, first, second)
    requires action.Create? || action.Resume? || action.Retry? || action.RetryDue?
    ensures Behind(effect.state.queue, first, second)
    ensures first in effect.state.tasks && effect.state.tasks[first] == s.tasks[first]
  {
    hide Without, Behind, PrepareResume, PrepareManualRetry, NewRequest;
    if effect.fills {
      BehindEnqueued(s, action.id, first, second);
    }
  }

  lemma LeavingKeepsBehind(s: State, action: Action, now: Time, effect: Effect, first: TaskID, second: TaskID)
    requires Update(s, action, now) == Some(effect) && IsQueued(s, first) && Behind(s.queue, first, second)
    requires (action.Pause? || action.Cancel? || action.Delete?) && first in effect.state.queue
    ensures Behind(effect.state.queue, first, second)
    ensures first in effect.state.tasks && effect.state.tasks[first] == s.tasks[first]
  {
    hide Without, Behind, EarliestPlan;
    LeavesBehind(s.queue, action.id, first, second);
  }

  lemma OthersKeepBehind(s: State, action: Action, now: Time, effect: Effect, first: TaskID, second: TaskID)
    requires Update(s, action, now) == Some(effect) && IsQueued(s, first) && Behind(s.queue, first, second)
    requires !(action.Create? || action.Resume? || action.Retry? || action.RetryDue? || action.Pause? || action.Cancel?
               || action.Delete?)
    requires first in effect.state.queue && !s.closed
    ensures Behind(effect.state.queue, first, second)
    ensures first in effect.state.tasks && effect.state.tasks[first] == s.tasks[first]
  {
    hide Behind, Reconciled, ExitUpdate, ProgressUpdate, FinishCloseUpdate;
    match action {
      case Progress(id, token, downloaded, total, checkpoint) =>
        ReportsLeaveQueued(s, id, token, downloaded, total, checkpoint, first);
      case ExitRun(id, token, ending, baseDelay) => ExitsLeaveQueued(s, id, token, ending, baseDelay, now, first);
      case FinishPause(id, disk) => ReconcilingLeavesQueued(s, id, disk, first);
      case _ =>
    }
  }

  /** Whether or not the other task leaves the queue. */
  lemma LeavesBehind(queue: seq<TaskID>, id: TaskID, first: TaskID, second: TaskID)
    requires Behind(queue, first, second)
    ensures first in Without(queue, id) ==> first != id && Behind(Without(queue, id), first, second)
  {
    FilterFacts(queue, other => other != id);
    if first != id {
      BehindWithout(queue, id, first, second);
    }
  }

  lemma ReportsLeaveQueued(s: State, id: TaskID, token: nat, downloaded: int, total: int,
                           checkpoint: Option<TransferCheckpoint>, first: TaskID)
    requires IsQueued(s, first)
    ensures var after := ProgressUpdate(s, id, token, downloaded, total, checkpoint);
            after.queue == s.queue && first in after.tasks && after.tasks[first] == s.tasks[first]
  {
  }

  lemma ExitsLeaveQueued(s: State, id: TaskID, token: nat, ending: Ending, baseDelay: Delay, now: Time, first: TaskID)
    requires IsQueued(s, first)
    ensures var after := ExitUpdate(s, id, token, ending, baseDelay, now);
            after.queue == s.queue && first in after.tasks && after.tasks[first] == s.tasks[first]
  {
    hide EndedTask, RetryDelay;
  }

  lemma ReconcilingLeavesQueued(s: State, id: TaskID, disk: Disk, first: TaskID)
    requires IsQueued(s, first) && id in s.tasks && id in s.requests
    ensures first in Reconciled(s, id, disk) && Reconciled(s, id, disk)[first] == s.tasks[first]
  {
    hide PartialProgress;
  }

  /** A fill that leaves a due task queued starts nobody behind it, and moves nobody before it. */
  lemma FillKeepsBehind(s: State, now: Time, first: TaskID, second: TaskID)
    requires OpenInv(s) && !s.closed && Behind(s.queue, first, second) && Due(s, now, first)
    requires first in FillLeaves(s, now)
    ensures second !in FillStarts(s, now) && Behind(FillLeaves(s, now), first, second)
  {
    hide RunsOK, RetriesOK, Due, Deferred;
    var n := Popped(s, now);
    var later, passed := s.queue[n..], DeferredOf(s, now, s.queue[..n]);
    FillLeavesFacts(s, now);
    NotBoth(s, now, first);
    assert s.queue == s.queue[..n] + later;
    NoDuplicatesSplit(s.queue, n);
    FilterFacts(s.queue[..n], id => Deferred(s, now, id));
    assert first in later && first !in passed;
    if Before(later + passed, second, first) {
      BeforeInFront(later, passed, second, first);
      BeforeAtTheEnd(s.queue[..n], later, second, first);
    }
    if second in FillStarts(s, now) {
      StartedIsBefore(s, now, second, first);
    }
  }

  lemma NotBoth(s: State, now: Time, id: TaskID)
    ensures !(Due(s, now, id) && Deferred(s, now, id))
  {
  }

  lemma BeforeInFront(front: seq<TaskID>, end: seq<TaskID>, x: TaskID, y: TaskID)
    requires Before(front + end, x, y)
    ensures Before(front, x, y) || y in end
  {
    var all := front + end;
    var i, j :| 0 <= i < j < |all| && all[i] == x && all[j] == y;
    if j < |front| {
      assert front[i] == x && front[j] == y;
    } else {
      assert end[j - |front|] == y;
    }
  }

  lemma BeforeAtTheEnd(front: seq<TaskID>, end: seq<TaskID>, x: TaskID, y: TaskID)
    requires Before(end, x, y)
    ensures Before(front + end, x, y)
  {
    var i, j :| 0 <= i < j < |end| && end[i] == x && end[j] == y;
    var all := front + end;
    assert all[|front| + i] == x && all[|front| + j] == y;
  }

  /** What a fill starts stood before every due task it leaves. */
  lemma StartedIsBefore(s: State, now: Time, started: TaskID, left: TaskID)
    requires started in FillStarts(s, now) && left in FillLeaves(s, now) && Due(s, now, left)
    ensures Before(s.queue, started, left)
  {
    var starts, rest := FillStarts(s, now), DueOf(s, now, FillLeaves(s, now));
    FillKeepsDueOrder(s, now);
    FilterFacts(FillLeaves(s, now), id => Due(s, now, id));
    FilterFacts(s.queue[..Popped(s, now)], id => Due(s, now, id));
    var i :| 0 <= i < |starts| && starts[i] == started;
    var j :| 0 <= j < |rest| && rest[j] == left;
    var due := starts + rest;
    assert due[i] == started && due[|starts| + j] == left;
    FilterKeepsOrder(s.queue, id => Due(s, now, id), started, left);
  }

  /** One action: whoever is behind a due task that stays queued is not started and stays behind. */
  lemma StepKeepsBehind(s: State, action: Action, now: Time, first: TaskID, second: TaskID)
    requires Inv(s) && Next(s, action, now).Some? && first != second
    requires Behind(s.queue, first, second) && Due(s, now, first) && first in Next(s, action, now).value.queue
    ensures var after := Next(s, action, now).value; Behind(after.queue, first, second) && !StartsRun(s, after, second)
  {
    hide Update, OpenInv, Fill, Behind, Due;
    BehindIsOpen(s, first, second);
    UpdateKeepsInv(s, action, now);
    UpdateStartsNothing(s, action, now);
    var effect := Update(s, action, now).value;
    assert !StartsRun(s, effect.state, second);
    if effect.fills {
      FillFromQueue(effect.state, now, first);
      UpdateKeepsBehind(s, action, now, effect, first, second);
      StillDue(s, effect.state, now, first);
      FillKeepsBehind(effect.state, now, first, second);
      FillStartsOnly(effect.state, now, second);
    } else {
      UpdateKeepsBehind(s, action, now, effect, first, second);
    }
  }

  lemma BehindIsOpen(s: State, first: TaskID, second: TaskID)
    requires Inv(s) && Behind(s.queue, first, second)
    ensures OpenInv(s) && !s.closed
  {
  }

  lemma StillDue(s: State, after: State, now: Time, first: TaskID)
    requires Due(s, now, first) && Inv(after) && first in after.queue && after.tasks[first] == s.tasks[first]
    ensures Due(after, now, first)
  {
  }

  /** What a fill leaves in the queue was there. */
  lemma FillFromQueue(s: State, now: Time, first: TaskID)
    requires Inv(s) && first in Fill(s, now).queue
    ensures !s.closed && OpenInv(s) && first in s.queue && first in FillLeaves(s, now)
            && Fill(s, now).queue == FillLeaves(s, now)
  {
    if !s.closed {
      FillEffect(s, now);
      FillLeavesFacts(s, now);
    }
  }

  lemma FillStartsOnly(s: State, now: Time, id: TaskID)
    requires OpenInv(s) && !s.closed && id !in FillStarts(s, now)
    ensures !StartsRun(s, Fill(s, now), id)
  {
    hide Fill;
    FillEffect(s, now);
    assert id !in Members(FillStarts(s, now));
  }

  /** Along the actions the task stays in the queue, and whenever slots may be filled its planned start has come. */
  ghost predicate WaitsDue(from: State, actions: seq<(Action, Time)>, id: TaskID)
    decreases |actions|
  {
    && id in from.queue
    && (actions != [] ==>
          && Due(from, actions[0].1, id)
          && (Next(from, actions[0].0, actions[0].1).Some? ==>
                WaitsDue(Next(from, actions[0].0, actions[0].1).value, actions[1..], id)))
  }

  /**
   First come, first served over whole runs: as long as a due task waits in the queue, nobody who did not stand
   before it is started, whoever is queued, paused, resumed or retried meanwhile.
   */
  lemma {:induction false} NoOvertaking(from: State, actions: seq<(Action, Time)>, to: State, first: TaskID,
                                        second: TaskID)
    requires Inv(from) && Leads(from, actions, to) && first != second
    requires Behind(from.queue, first, second) && WaitsDue(from, actions, first)
    ensures CountStarts(from, actions, second) == 0 && Behind(to.queue, first, second)
    decreases |actions|
  {
    if actions != [] {
      hide Next, Inv, Due, Behind;
      var (action, now) := actions[0];
      StepKeepsBehind(from, action, now, first, second);
      StepKeeps(from, action, now);
      NoOvertaking(Next(from, action, now).value, actions[1..], to, first, second);
    }
  }
}
