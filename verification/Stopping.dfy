/**
 Operations that wait for a run come to their end: wherever a transfer is when it is to be paused, canceled or shut
 down, a few steps that need no server bring its run out of the manager.
 */
module Stopping {
  import opened Basics
  import opened Tasks
  import opened TransferProtocol
  import opened TransferSafety

  /** Why an operation stops a run. */
  function CauseOf(operation: Operation): Cause {
    match operation
    case Idle => NoCause
    case Pausing => PauseCause
    case Canceling => CancelCause
    case Closing => ShutdownCause
  }

  /** An operation waits for the run. */
  predicate Waits(c: Cell) {
    c.memory.Up? && c.memory.operation != Operation.Idle && c.memory.run.Some?
  }

  /** It has told the run why. */
  predicate Told(c: Cell) {
    Waits(c) && c.memory.run.value.cause == CauseOf(c.memory.operation)
  }

  /** Nothing the user cares for has changed, except that the run is where it is. */
  predicate SameTask(before: Cell, after: Cell) {
    && before.memory.Up? && after.memory.Up? && after.memory.task.state == before.memory.task.state
    && after.memory.operation == before.memory.operation && after.disk.dest == before.disk.dest
  }

  /** The step needs nothing from a server. */
  predicate Local(event: Event) {
    !event.Respond? && !event.SegmentRespond? && !event.Receive? && !event.SegmentWrite?
  }

  predicate AllLocal(events: seq<Event>) {
    forall i :: 0 <= i < |events| ==> Local(events[i])
  }

  lemma LocalThen(world: World, c: Cell, event: Event, next: Cell, rest: seq<Event>, after: Cell)
    requires Local(event) && AllLocal(rest) && Next(world, c, event) == Some(next) && Leads(world, next, rest, after)
    ensures Leads(world, c, [event] + rest, after) && AllLocal([event] + rest)
  {
    hide Next, LeadsWith;
    StepThen(world, None, c, event, next, rest, after);
  }

  // ---------------------------------------------------------------------
  // Segment workers

  /** The run is in its segmented phase, its workers are there, and those before `i` have stopped. */
  predicate StoppedBefore(c: Cell, i: nat) {
    && Told(c) && c.memory.run.value.phase.Segments? && c.memory.run.value.phase.announced && c.disk.work.Some?
    && |c.memory.run.value.phase.workers| == |c.memory.run.value.phase.checkpoint.segments|
    && i <= |c.memory.run.value.phase.workers|
    && forall j :: 0 <= j < i ==> c.memory.run.value.phase.workers[j].Finished?
  }

  /** A worker that is asked to stop stops at once, or after the report it is just making. */
  lemma WorkerStops(world: World, c: Cell, i: nat) returns (events: seq<Event>, after: Cell)
    requires StoppedBefore(c, i) && i < |c.memory.run.value.phase.workers|
    ensures Leads(world, c, events, after) && AllLocal(events) && StoppedBefore(after, i + 1) && SameTask(c, after)
    ensures after.disk == c.disk
    ensures |after.memory.run.value.phase.workers| == |c.memory.run.value.phase.workers|
  {
    hide AcceptsReport, LeadsWith;
    var worker := c.memory.run.value.phase.workers[i];
    EmptyRun(world, None, c);
    events, after := [], c;
    if worker.Reporting? {
      var delivered := Next(world, c, SegmentDeliver(i)).value;
      after := Next(world, delivered, SegmentBreak(i)).value;
      EmptyRun(world, None, after);
      LocalThen(world, delivered, SegmentBreak(i), after, [], after);
      LocalThen(world, c, SegmentDeliver(i), delivered, [SegmentBreak(i)] + [], after);
      events := [SegmentDeliver(i)] + ([SegmentBreak(i)] + []);
    } else if !worker.Finished? {
      after := Next(world, c, SegmentBreak(i)).value;
      EmptyRun(world, None, after);
      LocalThen(world, c, SegmentBreak(i), after, [], after);
      events := [SegmentBreak(i)] + [];
    }
  }

  lemma {:induction false} WorkersStop(world: World, c: Cell, i: nat) returns (events: seq<Event>, after: Cell)
    requires StoppedBefore(c, i)
    ensures Leads(world, c, events, after) && AllLocal(events) && SameTask(c, after) && after.disk == c.disk
    ensures Told(after) && after.memory.run.value.phase.Segments?
    ensures StoppedBefore(after, |after.memory.run.value.phase.workers|)
    decreases |c.memory.run.value.phase.workers| - i
  {
    hide LeadsWith;
    if i == |c.memory.run.value.phase.workers| {
      EmptyRun(world, None, c);
      events, after := [], c;
    } else {
      var first, mid := WorkerStops(world, c, i);
      var rest, last := WorkersStop(world, mid, i + 1);
      RunThen(world, None, c, first, mid, rest, last);
      events, after := first + rest, last;
    }
  }

  // ---------------------------------------------------------------------
  // Runs

  /** What stopping a run leaves of the files. */
  predicate FilesAfter(c: Cell, after: Cell)
    requires Waits(c)
  {
    && after.disk.dest == c.disk.dest
    && (c.memory.operation != Canceling && !c.memory.run.value.phase.Linked? ==> after.disk == c.disk)
  }

  predicate Returns(c: Cell, after: Cell) {
    && Waits(c) && SameTask(c, after) && FilesAfter(c, after)
    && after.memory.run.Some? && after.memory.run.value.phase.Returned?
  }

  /** Outside the segmented phase one step suffices. */
  lemma OneStepReturns(world: World, validator: Option<Version>, c: Cell) returns (events: seq<Event>, after: Cell)
    requires Inv(world, validator, c) && Told(c) && !c.memory.run.value.phase.Segments?
    ensures Leads(world, c, events, after) && AllLocal(events) && Returns(c, after)
  {
    hide LeadsWith, Sound, Fits, Describes;
    var phase := c.memory.run.value.phase;
    EmptyRun(world, None, c);
    events, after := [], c;
    if !phase.Returned? {
      var event := if phase.Starting? then BeginTransfer(false)
                   else if phase.Linked? then UnlinkWork(true) else BreakOff(Interrupted);
      after := Next(world, c, event).value;
      EmptyRun(world, None, after);
      LocalThen(world, c, event, after, [], after);
      events := [event] + [];
    }
  }

  /** When all workers have stopped, the last report is made and the run breaks off. */
  lemma StoppedSegmentsReturn(world: World, c: Cell) returns (events: seq<Event>, after: Cell)
    requires Told(c) && c.memory.run.value.phase.Segments?
    requires StoppedBefore(c, |c.memory.run.value.phase.workers|)
    ensures Leads(world, c, events, after) && AllLocal(events) && Returns(c, after)
  {
    hide AcceptsReport, LeadsWith;
    var settled := Next(world, c, SegmentsSettle).value;
    after := Next(world, settled, BreakOff(Interrupted)).value;
    EmptyRun(world, None, after);
    LocalThen(world, settled, BreakOff(Interrupted), after, [], after);
    LocalThen(world, c, SegmentsSettle, settled, [BreakOff(Interrupted)] + [], after);
    events := [SegmentsSettle] + ([BreakOff(Interrupted)] + []);
  }

  lemma LaunchedSegmentsReturn(world: World, c: Cell) returns (events: seq<Event>, after: Cell)
    requires StoppedBefore(c, 0)
    ensures Leads(world, c, events, after) && AllLocal(events) && Returns(c, after)
  {
    hide LeadsWith;
    var first, stopped := WorkersStop(world, c, 0);
    var rest, last := StoppedSegmentsReturn(world, stopped);
    RunThen(world, None, c, first, stopped, rest, last);
    events, after := first + rest, last;
  }

  lemma SegmentsReturn(world: World, validator: Option<Version>, c: Cell) returns (events: seq<Event>, after: Cell)
    requires Inv(world, validator, c) && Told(c) && c.memory.run.value.phase.Segments?
    ensures Leads(world, c, events, after) && AllLocal(events) && Returns(c, after)
  {
    hide LeadsWith, Sound, Describes, Fits, AcceptsReport;
    if c.memory.run.value.phase.announced {
      events, after := LaunchedSegmentsReturn(world, c);
    } else {
      var launched := Next(world, c, SegmentAnnounce).value;
      var rest, last := LaunchedSegmentsReturn(world, launched);
      LocalThen(world, c, SegmentAnnounce, launched, rest, last);
      events, after := [SegmentAnnounce] + rest, last;
    }
  }

  /** Wherever it is, a run that is told to stop returns. */
  lemma ToldRunsReturn(world: World, validator: Option<Version>, c: Cell) returns (events: seq<Event>, after: Cell)
    requires Inv(world, validator, c) && Told(c)
    ensures Leads(world, c, events, after) && AllLocal(events) && Returns(c, after)
  {
    if c.memory.run.value.phase.Segments? {
      events, after := SegmentsReturn(world, validator, c);
    } else {
      events, after := OneStepReturns(world, validator, c);
    }
  }

  // ---------------------------------------------------------------------
  // Operations

  /** The step that ends the operation once the run is gone. */
  function Finish(operation: Operation): Event {
    match operation
    case Idle => Crash
    case Pausing => FinishPause(true)
    case Canceling => FinishCancel
    case Closing => FinishClose(true)
  }

  /** The operation is over: its task is as it wanted, no run is left, and pausing and shutting down kept the files. */
  predicate Done(c: Cell, after: Cell)
    requires Waits(c)
  {
    && after.disk.dest == c.disk.dest
    && (if c.memory.operation == Closing then after.memory.Down?
        else after.memory.Up? && after.memory.operation == Operation.Idle && after.memory.run.None?
             && after.memory.task.state == c.memory.task.state)
    && (if c.memory.operation == Canceling then after.disk.work.None?
        else !c.memory.run.value.phase.Linked? ==> after.disk == c.disk)
  }

  lemma ReturnedRunsLeave(world: World, c: Cell, returned: Cell, maxRetries: nat, retryAt: Time)
    returns (events: seq<Event>, after: Cell)
    requires Returns(c, returned) && returned.memory.task.state != Downloading
    ensures Leads(world, returned, events, after) && AllLocal(events) && Done(c, after)
  {
    hide LeadsWith, PartialProgress;
    var left := Next(world, returned, ExitRun(maxRetries, retryAt)).value;
    var finish := Finish(c.memory.operation);
    after := Next(world, left, finish).value;
    EmptyRun(world, None, after);
    LocalThen(world, left, finish, after, [], after);
    LocalThen(world, returned, ExitRun(maxRetries, retryAt), left, [finish] + [], after);
    events := [ExitRun(maxRetries, retryAt)] + ([finish] + []);
  }

  /**
   No operation waits forever: whatever its run is doing, and whatever the network does, steps of the engine alone
   end the pause, the cancellation or the shutdown. Pausing and shutting down keep the files as they are, but for the
   second name of a file that is just published; canceling removes the work file; no destination is touched.
   */
  lemma OperationsFinish(world: World, validator: Option<Version>, c: Cell, maxRetries: nat, retryAt: Time)
    returns (events: seq<Event>, after: Cell)
    requires Inv(world, validator, c) && Waits(c)
    requires c.memory.run.value.cause == NoCause || Told(c)
    ensures Leads(world, c, events, after) && AllLocal(events) && Done(c, after)
  {
    StateIsStopped(world, validator, c);
    if Told(c) {
      events, after := ToldRunsFinish(world, validator, c, maxRetries, retryAt);
    } else {
      var told := Next(world, c, SignalRun).value;
      StepKeeps(world, validator, c, SignalRun);
      var rest, last := ToldRunsFinish(world, validator, told, maxRetries, retryAt);
      hide Inv, Next, LeadsWith;
      LocalThen(world, c, SignalRun, told, rest, last);
      events, after := [SignalRun] + rest, last;
    }
  }

  lemma ToldRunsFinish(world: World, validator: Option<Version>, c: Cell, maxRetries: nat, retryAt: Time)
    returns (events: seq<Event>, after: Cell)
    requires Inv(world, validator, c) && Told(c)
    ensures Leads(world, c, events, after) && AllLocal(events) && Done(c, after)
  {
    StateIsStopped(world, validator, c);
    hide Inv, Next, LeadsWith, Done;
    var first, returned := ToldRunsReturn(world, validator, c);
    var rest, last := ReturnedRunsLeave(world, c, returned, maxRetries, retryAt);
    RunThen(world, None, c, first, returned, rest, last);
    events, after := first + rest, last;
  }

  lemma StateIsStopped(world: World, validator: Option<Version>, c: Cell)
    requires Inv(world, validator, c) && Waits(c)
    ensures c.memory.task.state != Downloading
  {
  }
}
