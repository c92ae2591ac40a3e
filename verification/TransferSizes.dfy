/**
 What a size is worth: while a task remembers a right one, what it publishes is whole whatever the server
 states; once it forgot its size, or was created with one too small, an honest run tears the file.
 */
module TransferSizes {
  import opened Basics
  import opened Checkpoints
  import opened Tasks
  import opened Recovery
  import opened TransferProtocol
  import opened TransferSafety
  import opened TransferLimits
  import opened TransferTheorems
  import opened WrongSizes

  // ---------------------------------------------------------------------
  // A remembered size

  /** Whoever takes the task up again still knows its size. */
  predicate StepRemembers(c: Cell, event: Event) {
    match event
    case Resume(_) => c.memory.Up? ==> 0 < c.memory.task.total
    case RetryNow(_) => c.memory.Up? ==> 0 < c.memory.task.total
    case Restore(_, _) => c.store.Some? ==> 0 < c.store.value.task.total
    case _ => true
  }

  ghost predicate Remembers(world: World, from: Cell, events: seq<Event>)
    decreases |events|
  {
    events != [] ==>
      && StepRemembers(from, events[0])
      && (Next(world, from, events[0]).Some? ==> Remembers(world, Next(world, from, events[0]).value, events[1..]))
  }

  predicate KnownInv(c: Cell) {
    && (c.disk.dest.Some? ==> c.published.Some? && c.published.value.whole)
    && (c.memory.Up? && c.memory.task.state != Completed ==> 0 < c.memory.request.expectedSize)
    && (c.memory.Up? && c.memory.run.Some? ==>
          0 < c.memory.run.value.input.expectedSize
          && (c.memory.run.value.phase.Sealed? ==> c.memory.run.value.phase.proof.whole))
  }

  lemma KnownWorkerStep(world: World, validator: Option<Version>, c: Cell, event: Event)
    requires Inv(world, validator, c) && KnownInv(c) && c.memory.Up? && c.memory.run.Some?
    requires IsWorkerEvent(event) && RunNext(world, c, event).Some?
    ensures KnownInv(RunNext(world, c, event).value)
  {
    hide PhaseOK;
    if event.SegmentDeliver? {
      DeliveredSizeIsKnown(world, validator, c, event.worker);
    }
  }

  lemma DeliveredSizeIsKnown(world: World, validator: Option<Version>, c: Cell, i: nat)
    requires Inv(world, validator, c) && c.memory.Up? && c.memory.run.Some? && SegmentDeliverStep(c, i).Some?
    ensures 0 < c.memory.run.value.phase.workers[i].snapshot.total
  {
    var phase := c.memory.run.value.phase;
    assert WorkerOK(world, phase.workers[i].version, c.disk.work.value, phase.checkpoint.segments[i],
                    phase.checkpoint.total,
                    phase.workers[i]);
  }

  lemma KnownBodyStep(world: World, validator: Option<Version>, c: Cell, event: Event)
    requires Inv(world, validator, c) && Covered(world, validator, c) && KnownInv(c) && validator.Some? && c.memory.Up?
    requires c.memory.run.Some?
    requires IsBodyEvent(event) && RunNext(world, c, event).Some?
    ensures KnownInv(RunNext(world, c, event).value)
  {
    hide AcceptReply, SegmentsOK, WorkersOK;
  }

  lemma KnownRestStep(world: World, validator: Option<Version>, c: Cell, event: Event)
    requires Inv(world, validator, c) && Covered(world, validator, c) && KnownInv(c) && validator.Some? && c.memory.Up?
    requires c.memory.run.Some?
    requires !IsBodyEvent(event) && !IsWorkerEvent(event) && RunNext(world, c, event).Some?
    ensures KnownInv(RunNext(world, c, event).value)
  {
    hide WorkersOK;
  }

  lemma KnownRunStep(world: World, validator: Option<Version>, c: Cell, event: Event)
    requires Inv(world, validator, c) && Covered(world, validator, c) && KnownInv(c) && validator.Some? && c.memory.Up?
    requires c.memory.run.Some?
    requires RunNext(world, c, event).Some?
    ensures KnownInv(RunNext(world, c, event).value)
  {
    hide Inv, Covered, KnownInv, RunNext;
    if IsWorkerEvent(event) {
      KnownWorkerStep(world, validator, c, event);
    } else if IsBodyEvent(event) {
      KnownBodyStep(world, validator, c, event);
    } else {
      KnownRestStep(world, validator, c, event);
    }
  }

  lemma KnownManagerStep(world: World, c: Cell, event: Event)
    requires KnownInv(c) && c.memory.Up? && StepRemembers(c, event) && ManagerNext(c, event).Some?
    ensures KnownInv(ManagerNext(c, event).value)
  {
    hide PartialProgress;
  }

  lemma KnownRestore(c: Cell, now: Time, saved: bool)
    requires KnownInv(c) && StepRemembers(c, Restore(now, saved)) && RestoreStep(c, now, saved).Some?
    ensures KnownInv(RestoreStep(c, now, saved).value)
  {
    RecoveryOnlyRemovesWork(c.store.value, c.disk, now);
  }

  lemma {:induction false} KnownRuns(world: World, validator: Option<Version>, from: Cell, events: seq<Event>, to: Cell)
    requires Inv(world, validator, from) && Covered(world, validator, from) && KnownInv(from) && validator.Some?
    requires Leads(world, from, events, to) && Remembers(world, from, events)
    ensures KnownInv(to)
    decreases |events|
  {
    if events != [] {
      hide Inv, Covered, KnownInv, ManagerNext, RunNext, RestoreStep;
      var event := events[0];
      CoveredStep(world, validator, from, event);
      if from.memory.Down? {
        KnownRestore(from, event.now, event.saved);
      } else if IsManagerEvent(event) {
        KnownManagerStep(world, from, event);
      } else {
        KnownRunStep(world, validator, from, event);
      }
      KnownRuns(world, validator, Next(world, from, event).value, events[1..], to);
    }
  }

  /**
   A task created with a validator and its right size publishes one whole version or nothing, on every
   honest run on which its size is still known whenever it is resumed, retried by hand or restored. Nothing
   is asked of the lengths the server states or of the connections: bodies may end anywhere.
   */
  lemma KnownSizesArePublishedWhole(world: World, expectedSize: int, scheduledAt: Option<Time>, acceptRanges: bool,
                                    validator: Option<Version>, events: seq<Event>, c: Cell)
    requires Reached(world, expectedSize, scheduledAt, acceptRanges, validator, events, c)
    requires validator.Some? && 0 < expectedSize && SizeGivenRight(world, expectedSize, acceptRanges, validator)
    requires Remembers(world, Created(expectedSize, scheduledAt, acceptRanges, validator), events)
    ensures c.disk.dest.Some? ==> c.published.Some? && c.disk.dest.value == world(c.published.value.version)
  {
    var created := Created(expectedSize, scheduledAt, acceptRanges, validator);
    CreationEstablishes(world, expectedSize, scheduledAt, acceptRanges, validator);
    KnownRuns(world, validator, created, events, c);
    NothingSpliced(world, expectedSize, scheduledAt, acceptRanges, validator, events, c);
  }

  // ---------------------------------------------------------------------
  // A forgotten size

  ghost predicate GoesOn(events: seq<Event>) {
    forall i :: 0 <= i < |events| ==> !TakesUpAgain(events[i])
  }

  lemma {:induction false} GoingOnRemembers(world: World, from: Cell, events: seq<Event>)
    requires GoesOn(events)
    ensures Remembers(world, from, events)
    decreases |events|
  {
    if events != [] {
      hide Next;
      assert !TakesUpAgain(events[0]);
      assert forall i :: 0 <= i < |events[1..]| ==> events[1..][i] == events[i + 1];
      if Next(world, from, events[0]).Some? {
        GoingOnRemembers(world, Next(world, from, events[0]).value, events[1..]);
      }
    }
  }

  /** A queued task that knows its size cannot be torn before it is taken up again. */
  lemma QueuedAndKnown(world: World, validator: Option<Version>, c: Cell, events: seq<Event>, after: Cell)
    requires Inv(world, validator, c) && Covered(world, validator, c) && validator.Some? && c.memory.Up?
    requires c.memory.task.state == Queued
    requires 0 < c.memory.request.expectedSize
    requires Leads(world, c, events, after) && GoesOn(events)
    ensures !Torn(world, after)
  {
    GoingOnRemembers(world, c, events);
    KnownRuns(world, validator, c, events, after);
    RunsKeep(world, validator, c, events, after);
  }

  /**
   The exact condition: a queued single-connection task with a validator that misses bytes can be torn by an
   honest run that goes on from here, with automatic retries and any pauses, if and only if its request
   knows no size.
   */
  lemma QueuedTaskTearsExactlyWhenForgotten(world: World, validator: Option<Version>, c: Cell)
    requires Inv(world, validator, c) && Covered(world, validator, c) && validator.Some? && c.memory.Up?
    requires c.memory.task.state == Queued
    requires c.memory.operation == Operation.Idle && !c.memory.request.allowSegments
    requires c.memory.request.offset < |world(validator.value)|
    ensures (exists events, after :: Leads(world, c, events, after) && GoesOn(events) && Torn(world, after))
            <==> c.memory.request.expectedSize <= 0
  {
    hide LeadsWith, Inv, Torn;
    if c.memory.request.expectedSize <= 0 {
      var cut: nat := QueuedOffset(world, validator, c);
      var events, after := ForgottenSizeTears(world, validator, c, validator.value, cut);
      PartIsTorn(world, after, validator.value, cut);
      assert Leads(world, c, events, after) && GoesOn(events) && Torn(world, after);
    } else {
      forall events, after | Leads(world, c, events, after) && GoesOn(events) ensures !Torn(world, after) {
        QueuedAndKnown(world, validator, c, events, after);
      }
    }
  }

  lemma QueuedOffset(world: World, validator: Option<Version>, c: Cell) returns (offset: nat)
    requires Inv(world, validator, c) && validator.Some? && c.memory.Up? && c.memory.task.state == Queued
    requires !c.memory.request.allowSegments && c.memory.request.offset < |world(validator.value)|
    ensures offset == c.memory.request.offset
  {
    QueuedFiles(world, validator, c, validator.value);
    offset := c.memory.request.offset;
  }

  /**
   Of the tasks with a validator, whatever size they were given, exactly those that use segments are never torn by an
   honest run.
   */
  lemma SafeExactlyWithSegments(world: World, expectedSize: int, scheduledAt: Option<Time>, acceptRanges: bool,
                                version: Version)
    requires world(version) != []
    ensures (forall events, c :: Reached(world, expectedSize, scheduledAt, acceptRanges, Some(version), events, c) ==>
               !Torn(world, c))
            <==> UsesSegments(expectedSize, acceptRanges, Some(version))
  {
    hide Torn, Reached;
    if UsesSegments(expectedSize, acceptRanges, Some(version)) {
      forall events, c | Reached(world, expectedSize, scheduledAt, acceptRanges, Some(version), events, c)
        ensures !Torn(world, c)
      {
        SegmentedIsNotTorn(world, expectedSize, scheduledAt, version, events, c);
      }
    } else if SizeGivenRight(world, expectedSize, acceptRanges, Some(version)) {
      var events, c := ForgottenSizeTearsTheFile(world, expectedSize, scheduledAt, acceptRanges, Some(version), version,
                                                 0);
      assert Reached(world, expectedSize, scheduledAt, acceptRanges, Some(version), events, c);
    } else {
      var events, c := TooSmallSizeTearsTheFile(world, expectedSize, scheduledAt, acceptRanges, version);
      assert Reached(world, expectedSize, scheduledAt, acceptRanges, Some(version), events, c);
    }
  }

  lemma SegmentedIsNotTorn(world: World, expectedSize: int, scheduledAt: Option<Time>, version: Version,
                           events: seq<Event>, c: Cell)
    requires Reached(world, expectedSize, scheduledAt, true, Some(version), events, c)
    requires DEFAULT_SEGMENTED_TRANSFER_MIN_SIZE <= expectedSize
    ensures !Torn(world, c)
  {
    if expectedSize == |world(version)| {
      var created := Created(expectedSize, scheduledAt, true, Some(version));
      CreationEstablishes(world, expectedSize, scheduledAt, true, Some(version));
      SegmentedRuns(world, Some(version), created, events, c);
      RunsKeep(world, Some(version), created, events, c);
    } else {
      WrongSizeStopsSegments(world, expectedSize, scheduledAt, version, events, c);
    }
  }

  // ---------------------------------------------------------------------
  // Which sizes are dangerous

  ghost predicate CanTear(world: World, expectedSize: int, scheduledAt: Option<Time>, acceptRanges: bool,
                          validator: Option<Version>) {
    exists events, c ::
      && Leads(world, Created(expectedSize, scheduledAt, acceptRanges, validator), events, c)
      && AllVouched(world, events) && Torn(world, c)
  }

  lemma VouchedIsNotTorn(world: World, expectedSize: int, scheduledAt: Option<Time>, acceptRanges: bool,
                         validator: Option<Version>, events: seq<Event>, c: Cell)
    requires Reached(world, expectedSize, scheduledAt, acceptRanges, validator, events, c) && AllVouched(world, events)
    requires SizeGivenRight(world, expectedSize, acceptRanges, validator)
    ensures !Torn(world, c)
  {
    NothingTorn(world, expectedSize, scheduledAt, acceptRanges, validator, events, c);
  }

  /**
   With servers that vouch for every length, the size given at creation can tear the file if and only if it
   is positive and below that of the version, and the task does not use segments. Larger sizes, unknown
   ones, and wrong ones of segmented tasks are harmless.
   */
  lemma TooSmallSizesTearExactly(world: World, expectedSize: int, scheduledAt: Option<Time>, acceptRanges: bool,
                                 version: Version)
    ensures CanTear(world, expectedSize, scheduledAt, acceptRanges, Some(version))
            <==> 0 < expectedSize < |world(version)| && !UsesSegments(expectedSize, acceptRanges, Some(version))
  {
    hide Torn, LeadsWith, Created;
    if 0 < expectedSize < |world(version)| && !UsesSegments(expectedSize, acceptRanges, Some(version)) {
      var events, c := TooSmallSizeTearsTheFile(world, expectedSize, scheduledAt, acceptRanges, version);
      assert CanTear(world, expectedSize, scheduledAt, acceptRanges, Some(version));
    } else {
      forall events, c
        | Leads(world, Created(expectedSize, scheduledAt, acceptRanges, Some(version)), events, c)
          && AllVouched(world, events)
        ensures !Torn(world, c)
      {
        if SizeGivenRight(world, expectedSize, acceptRanges, Some(version)) {
          VouchedIsNotTorn(world, expectedSize, scheduledAt, acceptRanges, Some(version), events, c);
        } else {
          WrongSizeStopsSegments(world, expectedSize, scheduledAt, version, events, c);
          NothingIsNotTorn(world, c);
        }
      }
    }
  }

  lemma NothingIsNotTorn(world: World, c: Cell)
    requires c.disk.dest.None?
    ensures !Torn(world, c)
  {
  }

  /** Without a validator nothing is resumed from a partial file, and no size can tear it. */
  lemma NoValidatorNoTear(world: World, expectedSize: int, scheduledAt: Option<Time>, acceptRanges: bool)
    ensures !CanTear(world, expectedSize, scheduledAt, acceptRanges, None)
  {
    hide Torn, LeadsWith, Created;
    forall events, c | Leads(world, Created(expectedSize, scheduledAt, acceptRanges, None), events, c)
      && AllVouched(world, events)
      ensures !Torn(world, c)
    {
      VouchedIsNotTorn(world, expectedSize, scheduledAt, acceptRanges, None, events, c);
    }
  }
}
