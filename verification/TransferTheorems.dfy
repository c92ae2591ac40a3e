/** The main results about the download protocol. */
module TransferTheorems {
  import opened Basics
  import opened Checkpoints
  import opened Tasks
  import opened Recovery
  import opened TransferProtocol
  import opened TransferSafety
  import opened WrongSizes

  /** A state some honest run of a created task can reach. */
  ghost predicate Reached(world: World, expectedSize: int, scheduledAt: Option<Time>, acceptRanges: bool,
                          validator: Option<Version>, events: seq<Event>, c: Cell) {
    Leads(world, Created(expectedSize, scheduledAt, acceptRanges, validator), events, c)
  }

  /** The destination exists and is not the version it was published as. */
  ghost predicate Torn(world: World, c: Cell) {
    c.disk.dest.Some? && !(c.published.Some? && c.disk.dest.value == world(c.published.value.version))
  }

  lemma ReachedInv(world: World, expectedSize: int, scheduledAt: Option<Time>, acceptRanges: bool,
                   validator: Option<Version>, events: seq<Event>, c: Cell)
    requires Reached(world, expectedSize, scheduledAt, acceptRanges, validator, events, c)
    requires SegmentSizeRight(world, expectedSize, acceptRanges, validator)
    ensures Inv(world, validator, c)
  {
    var created := Created(expectedSize, scheduledAt, acceptRanges, validator);
    CreationEstablishes(world, expectedSize, scheduledAt, acceptRanges, validator);
    RunsKeep(world, validator, created, events, c);
  }

  // ---------------------------------------------------------------------
  // Nothing torn or spliced

  /**
   Over every run, with workers, crashes and restarts interleaved in any order and the resource
   changing at any time, and whatever size the task was created with, a destination holds bytes of exactly
   one version from its beginning, and all of them whenever some right length vouched for the end.
   */
  lemma NothingSpliced(world: World, expectedSize: int, scheduledAt: Option<Time>, acceptRanges: bool,
                       validator: Option<Version>, events: seq<Event>, c: Cell)
    requires Reached(world, expectedSize, scheduledAt, acceptRanges, validator, events, c)
    ensures c.disk.dest.Some? ==>
              && c.published.Some?
              && c.disk.dest.value <= world(c.published.value.version)
              && (c.published.value.whole ==> c.disk.dest.value == world(c.published.value.version))
  {
    if SegmentSizeRight(world, expectedSize, acceptRanges, validator) {
      ReachedInv(world, expectedSize, scheduledAt, acceptRanges, validator, events, c);
    } else {
      WrongSizeStopsSegments(world, expectedSize, scheduledAt, validator.value, events, c);
    }
  }

  // ---------------------------------------------------------------------
  // Sizes that are not too small

  predicate Enough(size: int, total: int) {
    0 < total ==> size <= total
  }

  /** Every size the engine knows is at least that of the version. */
  predicate Covered(world: World, validator: Option<Version>, c: Cell) {
    validator.Some? ==>
      var size := |world(validator.value)|;
      && (c.store.Some? && c.store.value.task.state != Completed ==> Enough(size, c.store.value.task.total))
      && (c.memory.Up? && c.memory.task.state != Completed ==>
            Enough(size, c.memory.task.total) && Enough(size, c.memory.request.expectedSize))
      && (c.memory.Up? && c.memory.run.Some? ==> Enough(size, c.memory.run.value.input.expectedSize))
  }

  lemma CoveredWorkerStep(world: World, validator: Option<Version>, c: Cell, event: Event)
    requires Inv(world, validator, c) && Covered(world, validator, c) && c.memory.Up? && c.memory.run.Some?
    requires IsWorkerEvent(event) && RunNext(world, c, event).Some?
    ensures Covered(world, validator, RunNext(world, c, event).value)
  {
    hide Sound;
    if event.SegmentDeliver? {
      var phase := c.memory.run.value.phase;
      assert WorkerOK(world, phase.workers[event.worker].version, c.disk.work.value,
                      phase.checkpoint.segments[event.worker],
                      phase.checkpoint.total, phase.workers[event.worker]);
    }
  }

  lemma CoveredBodyStep(world: World, validator: Option<Version>, c: Cell, event: Event)
    requires Inv(world, validator, c) && Covered(world, validator, c) && c.memory.Up? && c.memory.run.Some?
    requires IsBodyEvent(event) && RunNext(world, c, event).Some?
    ensures Covered(world, validator, RunNext(world, c, event).value)
  {
    hide AcceptReply, Fits, SegmentsOK, WorkersOK;
  }

  lemma CoveredRestStep(world: World, validator: Option<Version>, c: Cell, event: Event)
    requires Inv(world, validator, c) && Covered(world, validator, c) && c.memory.Up? && c.memory.run.Some?
    requires !IsWorkerEvent(event) && !IsBodyEvent(event) && RunNext(world, c, event).Some?
    ensures Covered(world, validator, RunNext(world, c, event).value)
  {
    hide WorkersOK, Sound, FreshCheckpoint;
  }

  lemma CoveredRunStep(world: World, validator: Option<Version>, c: Cell, event: Event)
    requires Inv(world, validator, c) && Covered(world, validator, c) && c.memory.Up? && c.memory.run.Some?
    requires RunNext(world, c, event).Some?
    ensures Covered(world, validator, RunNext(world, c, event).value)
  {
    hide Inv, Covered, RunNext;
    if IsWorkerEvent(event) {
      CoveredWorkerStep(world, validator, c, event);
    } else if IsBodyEvent(event) {
      CoveredBodyStep(world, validator, c, event);
    } else {
      CoveredRestStep(world, validator, c, event);
    }
  }

  lemma CoveredManagerStep(world: World, validator: Option<Version>, c: Cell, event: Event)
    requires Covered(world, validator, c) && c.memory.Up? && ManagerNext(c, event).Some?
    ensures Covered(world, validator, ManagerNext(c, event).value)
  {
    hide PartialProgress;
  }

  lemma CoveredRestore(world: World, validator: Option<Version>, c: Cell, now: Time, saved: bool)
    requires Inv(world, validator, c) && Covered(world, validator, c) && RestoreStep(c, now, saved).Some?
    ensures Covered(world, validator, RestoreStep(c, now, saved).value)
  {
  }

  lemma CoveredStep(world: World, validator: Option<Version>, c: Cell, event: Event)
    requires Inv(world, validator, c) && Covered(world, validator, c) && HonestEvent(world, c, event)
    requires Next(world, c, event).Some?
    ensures Inv(world, validator, Next(world, c, event).value) && Covered(world, validator, Next(world, c, event).value)
  {
    hide Inv, Covered, ManagerNext, RunNext, RestoreStep;
    StepKeeps(world, validator, c, event);
    if c.memory.Down? {
      CoveredRestore(world, validator, c, event.now, event.saved);
    } else if IsManagerEvent(event) {
      CoveredManagerStep(world, validator, c, event);
    } else {
      CoveredRunStep(world, validator, c, event);
    }
  }

  lemma {:induction false} CoveredRuns(world: World, validator: Option<Version>, from: Cell, events: seq<Event>,
                                       to: Cell)
    requires Inv(world, validator, from) && Covered(world, validator, from) && Leads(world, from, events, to)
    ensures Inv(world, validator, to) && Covered(world, validator, to)
    decreases |events|
  {
    if events != [] {
      hide Inv, Covered, Next;
      CoveredStep(world, validator, from, events[0]);
      CoveredRuns(world, validator, Next(world, from, events[0]).value, events[1..], to);
    }
  }

  // ---------------------------------------------------------------------
  // Nothing torn

  /** The response states how long the representation is, or marks an end that is the representation's end. */
  ghost predicate Vouched(world: World, response: Response) {
    if response.status == PARTIAL_CONTENT then
      response.range.Some? ==>
        || 0 <= response.range.value.total
        || (response.framed && response.range.value.end + 1 == |world(response.version)|)
    else
      0 <= response.length || response.framed
  }

  ghost predicate AllVouched(world: World, events: seq<Event>) {
    forall i :: 0 <= i < |events| && events[i].Respond? ==> Vouched(world, events[i].response)
  }

  ghost predicate WholeInv(world: World, c: Cell) {
    && (c.disk.dest.Some? ==> c.published.Some? && c.published.value.whole)
    && (c.memory.Up? && c.memory.run.Some? ==>
          match c.memory.run.value.phase
          case Body(reply, _, _) => 0 <= reply.total || (reply.framed && reply.limit == |world(reply.version)|)
          case Sealed(_, proof) => proof.whole
          case _ => true)
  }

  lemma WholeWorkerStep(world: World, validator: Option<Version>, c: Cell, event: Event)
    requires Inv(world, validator, c) && WholeInv(world, c) && c.memory.Up? && c.memory.run.Some?
    requires IsWorkerEvent(event) && RunNext(world, c, event).Some?
    ensures WholeInv(world, RunNext(world, c, event).value)
  {
  }

  lemma WholeBodyStep(world: World, validator: Option<Version>, c: Cell, event: Event)
    requires Inv(world, validator, c) && WholeInv(world, c) && c.memory.Up? && c.memory.run.Some?
    requires HonestEvent(world, c, event) && (event.Respond? ==> Vouched(world, event.response))
    requires IsBodyEvent(event) && RunNext(world, c, event).Some?
    ensures WholeInv(world, RunNext(world, c, event).value)
  {
    hide SegmentsOK, WorkersOK, AcceptsReport;
  }

  lemma WholeRestStep(world: World, validator: Option<Version>, c: Cell, event: Event)
    requires Inv(world, validator, c) && Covered(world, validator, c) && WholeInv(world, c) && c.memory.Up?
    requires c.memory.run.Some?
    requires !IsWorkerEvent(event) && !IsBodyEvent(event) && RunNext(world, c, event).Some?
    ensures WholeInv(world, RunNext(world, c, event).value)
  {
    hide WorkersOK, Sound, FreshCheckpoint;
  }

  lemma WholeRunStep(world: World, validator: Option<Version>, c: Cell, event: Event)
    requires Inv(world, validator, c) && Covered(world, validator, c) && WholeInv(world, c) && c.memory.Up?
    requires c.memory.run.Some?
    requires HonestEvent(world, c, event) && (event.Respond? ==> Vouched(world, event.response))
    requires RunNext(world, c, event).Some?
    ensures WholeInv(world, RunNext(world, c, event).value)
  {
    hide Inv, WholeInv, RunNext;
    if IsWorkerEvent(event) {
      WholeWorkerStep(world, validator, c, event);
    } else if IsBodyEvent(event) {
      WholeBodyStep(world, validator, c, event);
    } else {
      WholeRestStep(world, validator, c, event);
    }
  }

  lemma WholeManagerStep(world: World, validator: Option<Version>, c: Cell, event: Event)
    requires Inv(world, validator, c) && WholeInv(world, c) && c.memory.Up?
    requires ManagerNext(c, event).Some?
    ensures WholeInv(world, ManagerNext(c, event).value)
  {
  }

  lemma WholeRestore(world: World, c: Cell, now: Time, saved: bool)
    requires WholeInv(world, c) && RestoreStep(c, now, saved).Some?
    ensures WholeInv(world, RestoreStep(c, now, saved).value)
  {
    RecoveryOnlyRemovesWork(c.store.value, c.disk, now);
  }

  lemma {:induction false} WholeRuns(world: World, validator: Option<Version>, from: Cell, events: seq<Event>, to: Cell)
    requires Inv(world, validator, from) && Covered(world, validator, from) && WholeInv(world, from)
    requires Leads(world, from, events, to) && AllVouched(world, events)
    ensures WholeInv(world, to)
    decreases |events|
  {
    if events != [] {
      var event := events[0];
      var next := Next(world, from, event).value;
      CoveredStep(world, validator, from, event);
      if from.memory.Down? {
        WholeRestore(world, from, event.now, event.saved);
      } else if IsManagerEvent(event) {
        WholeManagerStep(world, validator, from, event);
      } else {
        WholeRunStep(world, validator, from, event);
      }
      WholeRuns(world, validator, next, events[1..], to);
    }
  }

  /** With servers that vouch for their lengths, the destination is absent or exactly one whole version. */
  lemma NothingTorn(world: World, expectedSize: int, scheduledAt: Option<Time>, acceptRanges: bool,
                    validator: Option<Version>, events: seq<Event>, c: Cell)
    requires Reached(world, expectedSize, scheduledAt, acceptRanges, validator, events, c)
    requires SizeGivenRight(world, expectedSize, acceptRanges, validator) && AllVouched(world, events)
    ensures c.disk.dest.Some? ==> c.published.Some? && c.disk.dest.value == world(c.published.value.version)
  {
    var created := Created(expectedSize, scheduledAt, acceptRanges, validator);
    CreationEstablishes(world, expectedSize, scheduledAt, acceptRanges, validator);
    WholeRuns(world, validator, created, events, c);
    NothingSpliced(world, expectedSize, scheduledAt, acceptRanges, validator, events, c);
  }

  /**
   When exactly a torn file is published: a body that ends before its representation does is accepted as
   complete if and only if its end was not marked (or was that of a shorter range), the response stated no
   total, and the request knew no size, or just this one. As long as no known size is too small the last case
   cannot occur, so only a size that was never known or was forgotten remains.
   */
  lemma EarlyEndsArePublishedExactly(world: World, validator: Option<Version>, c: Cell)
    requires Inv(world, validator, c) && c.memory.Up? && c.memory.run.Some?
    requires c.memory.run.value.phase.Body? && c.memory.run.value.phase.announced
    requires c.memory.run.value.phase.downloaded < |world(c.memory.run.value.phase.reply.version)|
    ensures var Body(reply, downloaded, _) := c.memory.run.value.phase;
            var expected := c.memory.run.value.input.expectedSize;
            var ended := EndOfBodyStep(world, c);
            && (ended.Some? && ended.value.memory.run.value.phase.Sealed?
                <==> && (reply.framed ==> downloaded == reply.limit) && reply.total == -1
                     && (expected <= 0 || expected == downloaded))
            && (ended.Some? && ended.value.memory.run.value.phase.Sealed? ==>
                  && LinkStep(ended.value, true).value.disk.dest == c.disk.work
                  && c.disk.work.value != world(reply.version))
            && (Covered(world, validator, c) && validator.Some? && 0 < expected ==> expected != downloaded)
  {
    hide Deliver;
    var Body(reply, downloaded, _) := c.memory.run.value.phase;
    DeliverKeepsRun(c, downloaded, reply.total);
    assert |c.disk.work.value| == downloaded;
  }

  lemma DeliverKeepsRun(c: Cell, downloaded: int, total: int)
    requires c.memory.Up?
    ensures var after := Deliver(c, downloaded, total, None);
            after.memory.Up? && after.memory.run == c.memory.run && after.disk == c.disk
  {
  }

  // ---------------------------------------------------------------------
  // Segmented tasks need no such server

  predicate SegmentedInv(validator: Option<Version>, c: Cell) {
    && validator.Some?
    && (c.disk.dest.Some? ==> c.published == Some(Proof(validator.value, true)))
    && (c.store.Some? && c.store.value.task.state != Completed ==>
          c.store.value.acceptRanges && DEFAULT_SEGMENTED_TRANSFER_MIN_SIZE <= c.store.value.task.total)
    && (c.memory.Up? && c.memory.task.state != Completed ==> c.memory.request.allowSegments)
    && (c.memory.Up? && c.memory.run.Some? ==>
          && Segmented(c.memory.run.value.input)
          && (c.memory.run.value.phase.Sealed? ==> c.memory.run.value.phase.proof == Proof(validator.value, true)))
  }

  lemma SegmentedWorkerStep(world: World, validator: Option<Version>, c: Cell, event: Event)
    requires SegmentedInv(validator, c) && c.memory.Up? && c.memory.run.Some?
    requires IsWorkerEvent(event) && RunNext(world, c, event).Some?
    requires Inv(world, validator, RunNext(world, c, event).value)
    ensures SegmentedInv(validator, RunNext(world, c, event).value)
  {
  }

  lemma SegmentedBodyStep(world: World, validator: Option<Version>, c: Cell, event: Event)
    requires Inv(world, validator, c) && SegmentedInv(validator, c) && c.memory.Up? && c.memory.run.Some?
    requires IsBodyEvent(event) && RunNext(world, c, event).Some?
    ensures SegmentedInv(validator, RunNext(world, c, event).value)
  {
  }

  predicate IsPublishEvent(event: Event) {
    event.SegmentsConclude? || event.LinkFile? || event.UnlinkWork? || event.ExitRun?
  }

  lemma SegmentedPublishStep(world: World, validator: Option<Version>, c: Cell, event: Event)
    requires Inv(world, validator, c) && SegmentedInv(validator, c) && c.memory.Up? && c.memory.run.Some?
    requires IsPublishEvent(event) && RunNext(world, c, event).Some?
    ensures SegmentedInv(validator, RunNext(world, c, event).value)
  {
  }

  lemma SegmentedRunStep(world: World, validator: Option<Version>, c: Cell, event: Event)
    requires Inv(world, validator, c) && SegmentedInv(validator, c) && c.memory.Up? && c.memory.run.Some?
    requires RunNext(world, c, event).Some? && Inv(world, validator, RunNext(world, c, event).value)
    ensures SegmentedInv(validator, RunNext(world, c, event).value)
  {
    hide Inv, SegmentedInv;
    if IsPublishEvent(event) {
      SegmentedPublishStep(world, validator, c, event);
    } else if IsWorkerEvent(event) {
      SegmentedWorkerStep(world, validator, c, event);
    } else if IsBodyEvent(event) {
      SegmentedBodyStep(world, validator, c, event);
    } else {
      SegmentedRestStep(world, validator, c, event);
    }
  }

  lemma SegmentedRestStep(world: World, validator: Option<Version>, c: Cell, event: Event)
    requires Inv(world, validator, c) && SegmentedInv(validator, c) && c.memory.Up? && c.memory.run.Some?
    requires event.BeginTransfer? || event.SegmentAnnounce? || event.SegmentsSettle?
    requires RunNext(world, c, event).Some? && Inv(world, validator, RunNext(world, c, event).value)
    ensures SegmentedInv(validator, RunNext(world, c, event).value)
  {
    hide PhaseOK;
  }

  lemma SegmentedManagerStep(world: World, validator: Option<Version>, c: Cell, event: Event)
    requires Inv(world, validator, c) && SegmentedInv(validator, c) && c.memory.Up?
    requires ManagerNext(c, event).Some? && Inv(world, validator, ManagerNext(c, event).value)
    ensures SegmentedInv(validator, ManagerNext(c, event).value)
  {
  }

  lemma SegmentedRestore(world: World, validator: Option<Version>, c: Cell, now: Time, saved: bool)
    requires Inv(world, validator, c) && SegmentedInv(validator, c) && RestoreStep(c, now, saved).Some?
    requires Inv(world, validator, RestoreStep(c, now, saved).value)
    ensures SegmentedInv(validator, RestoreStep(c, now, saved).value)
  {
    RecoveryOnlyRemovesWork(c.store.value, c.disk, now);
  }

  lemma SegmentedStep(world: World, validator: Option<Version>, c: Cell, event: Event)
    requires Inv(world, validator, c) && SegmentedInv(validator, c) && HonestEvent(world, c, event)
    requires Next(world, c, event).Some?
    ensures Inv(world, validator, Next(world, c, event).value) && SegmentedInv(validator, Next(world, c, event).value)
  {
    hide Inv, SegmentedInv, ManagerNext, RunNext, RestoreStep;
    StepKeeps(world, validator, c, event);
    if c.memory.Down? {
      SegmentedRestore(world, validator, c, event.now, event.saved);
    } else if IsManagerEvent(event) {
      SegmentedManagerStep(world, validator, c, event);
    } else {
      SegmentedRunStep(world, validator, c, event);
    }
  }

  lemma {:induction false} SegmentedRuns(world: World, validator: Option<Version>, from: Cell, events: seq<Event>,
                                         to: Cell)
    requires Inv(world, validator, from) && SegmentedInv(validator, from) && Leads(world, from, events, to)
    ensures Inv(world, validator, to) && SegmentedInv(validator, to)
    decreases |events|
  {
    if events != [] {
      hide Inv, SegmentedInv, Next;
      SegmentedStep(world, validator, from, events[0]);
      SegmentedRuns(world, validator, Next(world, from, events[0]).value, events[1..], to);
    }
  }

  /**
   A task created for segmented transfer publishes the whole version its validator names, or nothing,
   whatever size it was given, whatever lengths the server states and wherever its connections are cut.
   */
  lemma SegmentedTasksPublishTheirVersion(world: World, expectedSize: int, scheduledAt: Option<Time>,
                                          validator: Option<Version>, events: seq<Event>, c: Cell)
    requires validator.Some? && DEFAULT_SEGMENTED_TRANSFER_MIN_SIZE <= expectedSize
    requires Reached(world, expectedSize, scheduledAt, true, validator, events, c)
    ensures c.disk.dest.Some? ==> c.disk.dest.value == world(validator.value)
  {
    if expectedSize == |world(validator.value)| {
      var created := Created(expectedSize, scheduledAt, true, validator);
      CreationEstablishes(world, expectedSize, scheduledAt, true, validator);
      SegmentedRuns(world, validator, created, events, c);
      NothingSpliced(world, expectedSize, scheduledAt, true, validator, events, c);
    } else {
      WrongSizeStopsSegments(world, expectedSize, scheduledAt, validator.value, events, c);
    }
  }

  // ---------------------------------------------------------------------
  // Checkpoints

  /**
   The stored checkpoint of an unfinished task describes the work file, after any interleaving of writes, reports and
   crashes.
   */
  lemma StoredCheckpointIsSound(world: World, expectedSize: int, scheduledAt: Option<Time>, acceptRanges: bool,
                                validator: Option<Version>, events: seq<Event>, c: Cell)
    requires Reached(world, expectedSize, scheduledAt, acceptRanges, validator, events, c)
    requires SegmentSizeRight(world, expectedSize, acceptRanges, validator)
    requires c.store.Some? && c.store.value.checkpoint.Some? && c.store.value.task.state != Completed
    ensures validator.Some? && Describes(c.store.value.checkpoint.value, world(validator.value))
    ensures c.disk.work.Some? && |c.disk.work.value| == c.store.value.checkpoint.value.total ==>
              Sound(c.disk.work.value, world(validator.value), c.store.value.checkpoint.value)
  {
    ReachedInv(world, expectedSize, scheduledAt, acceptRanges, validator, events, c);
  }

  /** A worker changes no byte outside its own segment. */
  lemma WorkerStaysInItsSegment(world: World, validator: Option<Version>, c: Cell, i: nat, count: nat, p: nat)
    requires Inv(world, validator, c) && c.memory.Up? && c.memory.run.Some?
    requires SegmentWriteStep(world, c, i, count).Some?
    requires p < |c.disk.work.value|
    ensures var after := SegmentWriteStep(world, c, i, count).value.disk.work;
            var segment := c.memory.run.value.phase.checkpoint.segments[i];
            && after.Some? && |after.value| == |c.disk.work.value|
            && (after.value[p] != c.disk.work.value[p] ==> segment.start + segment.completed <= p <= segment.end)
  {
    InvGivesSegmentFacts(world, validator, c);
    var segment := c.memory.run.value.phase.checkpoint.segments[i];
    if segment.completed + c.memory.run.value.phase.workers[i].ahead + count <= segment.Length() {
      WorkerPosition(world, validator.value, c, i, count);
    }
  }

  /** Once the workers of a paused transfer have stopped, the stored record is the final checkpoint, to the byte. */
  lemma PauseKeepsTheLastCheckpoint(world: World, validator: Option<Version>, c: Cell, maxRetries: nat, retryAt: Time)
    requires Inv(world, validator, c) && c.memory.Up? && c.memory.run.Some? && c.memory.run.value.phase.Settled?
    requires c.memory.task.state == Paused && c.memory.operation == Pausing && c.memory.run.value.cause == PauseCause
    ensures var checkpoint := c.memory.run.value.phase.checkpoint;
            var stopped := BreakOffStep(c, Interrupted).value;
            var exited := ExitStep(stopped, maxRetries, retryAt).value;
            var paused := FinishPauseStep(exited, true).value;
            && paused.store.Some? && paused.store.value.checkpoint == Some(checkpoint)
            && paused.store.value.task.state == Paused
            && paused.store.value.task.downloaded == Downloaded(checkpoint)
            && paused.disk == c.disk
            && validator.Some? && Sound(paused.disk.work.value, world(validator.value), checkpoint)
  {
  }

  // ---------------------------------------------------------------------
  // Entry conditions, restarts and the publish window

  /** What the downloader checks of a run before its first request. */
  predicate MeetsEntry(world: World, c: Cell)
    requires c.memory.Up? && c.memory.run.Some?
  {
    var input := c.memory.run.value.input;
    var begun := Begin(world, c, true).memory.run.value.phase;
    && (begun.Requested? || begun.Segments? || begun.Sealed?)
    && (input.checkpoint.None? ==> input.offset == WorkSize(c.disk) && (input.offset == 0 ==> c.disk.work.None?))
    && (input.checkpoint.Some? ==> input.offset == Downloaded(input.checkpoint.value))
    && (0 < input.offset ==> input.validator.Some?)
  }

  lemma EntryConditions(world: World, validator: Option<Version>, c: Cell)
    requires Inv(world, validator, c) && c.memory.Up? && c.memory.run.Some? && c.memory.run.value.phase.Starting?
    ensures MeetsEntry(world, c)
  {
    hide Sound;
    var input := c.memory.run.value.input;
    if input.checkpoint.Some? {
      DownloadedBounds(input.checkpoint.value, input.expectedSize);
    } else if Segmented(input) {
      FreshCheckpointValid(input.expectedSize, SEGMENTED_CONNECTION_COUNT);
    }
  }

  /** No run the manager starts is refused by the downloader's own checks, whatever size the task was created with. */
  lemma StartedRunsAreAccepted(world: World, expectedSize: int, scheduledAt: Option<Time>, acceptRanges: bool,
                               validator: Option<Version>, events: seq<Event>, c: Cell)
    requires Reached(world, expectedSize, scheduledAt, acceptRanges, validator, events, c)
    requires c.memory.Up? && c.memory.run.Some? && c.memory.run.value.phase.Starting?
    ensures MeetsEntry(world, c)
  {
    hide Inv, MeetsEntry;
    if SegmentSizeRight(world, expectedSize, acceptRanges, validator) {
      ReachedInv(world, expectedSize, scheduledAt, acceptRanges, validator, events, c);
      EntryConditions(world, validator, c);
    } else {
      WrongSizeStopsSegments(world, expectedSize, scheduledAt, validator.value, events, c);
      EntryConditions(Resized(world, validator.value, expectedSize), validator, c);
      WrongBegins(world, expectedSize, validator.value, c);
    }
  }

  lemma WrongBegins(world: World, size: nat, version: Version, c: Cell)
    requires WrongInv(size, version, c) && c.memory.Up? && c.memory.run.Some?
    requires DEFAULT_SEGMENTED_TRANSFER_MIN_SIZE <= size
    requires MeetsEntry(Resized(world, version, size), c)
    ensures MeetsEntry(world, c)
  {
    hide FreshCheckpoint, ValidCheckpoint, Downloaded;
  }

  /** A crash followed by a restart whose save succeeds. */
  function Restarted(c: Cell, now: Time): Option<Cell> {
    RestoreStep(c.(memory := Down), now, true)
  }

  /** After a restart, a paused task can be resumed exactly when it kept nothing or has a validator to resume with. */
  lemma RestartedTasksResume(world: World, validator: Option<Version>, c: Cell, now: Time)
    requires Inv(world, validator, c) && Restarted(c, now).Some? && c.store.value.task.state != Completed
    requires Restarted(c, now).value.memory.task.state == Paused
    ensures var restarted := Restarted(c, now).value;
            ResumeStep(restarted, true).Some? <==> restarted.memory.task.downloaded == 0 || validator.Some?
  {
    if !IsTerminalState(c.store.value.task.state) {
      RecoveredProgressIsBacked(c.store.value, c.disk, now);
    }
    RecoveredFits(world, validator, c.store.value, c.disk, now);
  }

  /**
   A crash between the hard link and the stored completion: the restart recognises the published file
   exactly when the stored size is its size, or the size is unknown and the work name still denotes it.
   */
  lemma PublishWindow(world: World, validator: Option<Version>, c: Cell, now: Time)
    requires Inv(world, validator, c) && c.memory.Up? && c.disk.dest.Some?
    requires c.memory.task.state == Downloading
    requires c.store.value.task.state == Downloading
    ensures Restarted(c, now).Some?
    ensures var restarted := Restarted(c, now).value;
            && restarted.disk.dest == c.disk.dest && restarted.disk.work.None?
            && (restarted.memory.task.state == Completed <==> 0 < c.memory.task.total || c.disk.linked)
            && (restarted.memory.task.state == Completed ==>
                  restarted.memory.task.downloaded == restarted.memory.task.total == |c.disk.dest.value|)
            && (restarted.memory.task.state != Completed ==> restarted.memory.task.state == Failed)
  {
  }

  /** A transfer that published just as it was paused cannot be resumed; only a restart settles it. */
  lemma PublishedWhilePaused(world: World, validator: Option<Version>, c: Cell, now: Time, saved: bool)
    requires Inv(world, validator, c) && c.memory.Up? && c.disk.dest.Some?
    requires c.memory.task.state == Paused && c.store.value.task.state == Paused
    ensures ResumeStep(c, saved).None?
    ensures Restarted(c, now).Some?
    ensures var restarted := Restarted(c, now).value;
            && restarted.disk.dest == c.disk.dest
            && (restarted.memory.task.state == Completed <==>
                  if 0 < c.memory.task.total then c.memory.task.total == |c.disk.dest.value| else c.disk.linked)
  {
  }
}
