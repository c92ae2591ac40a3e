/**
 Tasks that use segments and were created with a wrong size: no segment ever receives a byte, so nothing is
 published, and everything else goes on as if the resource had the size given.
 */
module WrongSizes {
  import opened Basics
  import opened Checkpoints
  import opened Tasks
  import opened Recovery
  import opened TransferProtocol
  import opened TransferSafety

  /** Everything the task keeps has the wrong size, and no segment ever receives a byte. */
  ghost predicate WrongInv(size: int, version: Version, c: Cell) {
    && c.disk.dest.None? && !c.disk.linked
    && (c.store.Some? ==>
          && c.store.value.acceptRanges && c.store.value.validator == Some(version)
          && c.store.value.task.total == size && c.store.value.task.state != Completed
            && Blank(size, c.store.value.checkpoint))
    && (c.memory.Up? ==>
          && c.memory.task.total == size && c.memory.task.state != Completed
          && WrongRequest(size, version, c.memory.request)
          && (c.memory.run.Some? ==>
                WrongRequest(size, version, c.memory.run.value.input) && WrongPhase(size, c.memory.run.value.phase)))
  }

  predicate Blank(size: int, checkpoint: Option<TransferCheckpoint>) {
    checkpoint.None? || (0 < size && checkpoint.value == FreshCheckpoint(size, SEGMENTED_CONNECTION_COUNT))
  }

  predicate WrongRequest(size: int, version: Version, request: Request) {
    && request.validator == Some(version) && request.acceptRanges && request.allowSegments
    && request.expectedSize == size && Blank(size, request.checkpoint)
  }

  predicate WrongPhase(size: int, phase: Phase) {
    match phase
    case Starting => true
    case Segments(checkpoint, workers, _) =>
      && Blank(size, Some(checkpoint))
      && forall i :: 0 <= i < |workers| ==> workers[i] == Asking || workers[i] == Finished(false)
    case Settled(checkpoint, _) => Blank(size, Some(checkpoint))
    case Returned(Failure(_)) => true
    case _ => false
  }

  lemma BlankCountsNothing(size: int)
    requires DEFAULT_SEGMENTED_TRANSFER_MIN_SIZE <= size
    ensures var checkpoint := FreshCheckpoint(size, SEGMENTED_CONNECTION_COUNT);
            && ValidCheckpoint(checkpoint, size) && checkpoint.total == size && Downloaded(checkpoint) == 0
            && forall i :: 0 <= i < |checkpoint.segments| ==>
                checkpoint.segments[i].completed == 0 < checkpoint.segments[i].Length()
  {
    FreshCheckpointValid(size, SEGMENTED_CONNECTION_COUNT);
    var checkpoint := FreshCheckpoint(size, SEGMENTED_CONNECTION_COUNT);
    forall i | 0 <= i < |checkpoint.segments|
      ensures checkpoint.segments[i].completed == 0 < checkpoint.segments[i].Length()
    {
      TilesSplit(checkpoint.segments, 0, size, i);
    }
  }

  /** An honest answer never names the wrong total, so no worker accepts it. */
  lemma WrongAnswerIsRefused(world: World, size: int, version: Version, c: Cell, i: nat, response: Response)
    requires DEFAULT_SEGMENTED_TRANSFER_MIN_SIZE <= size && size != |world(version)|
    requires WrongInv(size, version, c) && c.memory.Up? && c.memory.run.Some?
    requires HonestEvent(world, c, SegmentRespond(i, response)) && SegmentRespondStep(c, i, response).Some?
    ensures SegmentRespondStep(c, i, response).value == WithWorker(c, i, Finished(false))
  {
    var checkpoint := c.memory.run.value.phase.checkpoint;
    BlankCountsNothing(size);
    hide FreshCheckpoint;
    assert !AcceptSegment(c.memory.run.value.input, checkpoint, i, response);
  }

  lemma WrongWorkerStep(world: World, size: int, version: Version, c: Cell, event: Event)
    requires DEFAULT_SEGMENTED_TRANSFER_MIN_SIZE <= size && size != |world(version)| && IsWorkerEvent(event)
    requires WrongInv(size, version, c) && c.memory.Up? && c.memory.run.Some? && HonestEvent(world, c, event)
    requires RunNext(world, c, event).Some?
    ensures WrongInv(size, version, RunNext(world, c, event).value)
  {
    if event.SegmentRespond? {
      WrongAnswerIsRefused(world, size, version, c, event.worker, event.response);
      hide AcceptSegment;
    }
    hide FreshCheckpoint;
  }

  lemma WrongTransferStep(world: World, size: int, version: Version, c: Cell, event: Event)
    requires DEFAULT_SEGMENTED_TRANSFER_MIN_SIZE <= size && !IsWorkerEvent(event)
    requires WrongInv(size, version, c) && c.memory.Up? && c.memory.run.Some?
    requires RunNext(world, c, event).Some?
    ensures WrongInv(size, version, RunNext(world, c, event).value)
  {
    BlankCountsNothing(size);
    hide FreshCheckpoint, ValidCheckpoint, Downloaded;
  }

  lemma WrongRunStep(world: World, size: int, version: Version, c: Cell, event: Event)
    requires DEFAULT_SEGMENTED_TRANSFER_MIN_SIZE <= size && size != |world(version)|
    requires WrongInv(size, version, c) && c.memory.Up? && c.memory.run.Some? && HonestEvent(world, c, event)
    requires RunNext(world, c, event).Some?
    ensures WrongInv(size, version, RunNext(world, c, event).value)
  {
    hide WrongInv, RunNext;
    if IsWorkerEvent(event) {
      WrongWorkerStep(world, size, version, c, event);
    } else {
      WrongTransferStep(world, size, version, c, event);
    }
  }

  lemma WrongManagerStep(size: int, version: Version, c: Cell, event: Event)
    requires DEFAULT_SEGMENTED_TRANSFER_MIN_SIZE <= size
    requires WrongInv(size, version, c) && c.memory.Up? && ManagerNext(c, event).Some?
    ensures WrongInv(size, version, ManagerNext(c, event).value)
  {
    hide FreshCheckpoint, ValidCheckpoint, Downloaded;
  }

  lemma WrongRestore(size: int, version: Version, c: Cell, now: Time, saved: bool)
    requires DEFAULT_SEGMENTED_TRANSFER_MIN_SIZE <= size
    requires WrongInv(size, version, c) && RestoreStep(c, now, saved).Some?
    ensures WrongInv(size, version, RestoreStep(c, now, saved).value)
  {
    hide FreshCheckpoint, ValidCheckpoint, Downloaded;
    BlankCountsNothing(size);
    RecoveryOnlyRemovesWork(c.store.value, c.disk, now);
  }

  /** The world in which the version has the size given. */
  function Resized(world: World, version: Version, size: nat): World {
    (v: Version) => if v == version then seq(size, _ => 0) else world(v)
  }

  lemma WrongStepFits(world: World, size: nat, version: Version, c: Cell, event: Event)
    requires DEFAULT_SEGMENTED_TRANSFER_MIN_SIZE <= size && size != |world(version)|
    requires WrongInv(size, version, c) && HonestEvent(world, c, event) && Next(world, c, event).Some?
    requires Inv(Resized(world, version, size), Some(version), c)
    ensures Inv(Resized(world, version, size), Some(version), Next(world, c, event).value)
  {
    var resized := Resized(world, version, size);
    if event.SegmentRespond? && c.memory.Up? {
      WrongAnswerIsRefused(world, size, version, c, event.worker, event.response);
      SegmentStopKeeps(resized, Some(version), c, event.worker, false);
    } else {
      SameStepResized(world, size, version, c, event);
      StepKeeps(resized, Some(version), c, event);
    }
  }

  lemma SameStepResized(world: World, size: nat, version: Version, c: Cell, event: Event)
    requires WrongInv(size, version, c) && Next(world, c, event).Some? && !event.SegmentRespond?
    requires DEFAULT_SEGMENTED_TRANSFER_MIN_SIZE <= size
    ensures Next(Resized(world, version, size), c, event) == Next(world, c, event)
    ensures HonestEvent(Resized(world, version, size), c, event)
  {
    hide FreshCheckpoint, ValidCheckpoint, Downloaded, ManagerNext, RestoreStep, Resized;
  }

  lemma WrongStep(world: World, size: nat, version: Version, c: Cell, event: Event)
    requires DEFAULT_SEGMENTED_TRANSFER_MIN_SIZE <= size && size != |world(version)|
    requires WrongInv(size, version, c) && HonestEvent(world, c, event) && Next(world, c, event).Some?
    ensures WrongInv(size, version, Next(world, c, event).value)
  {
    hide WrongInv, ManagerNext, RunNext, RestoreStep;
    if c.memory.Down? {
      WrongRestore(size, version, c, event.now, event.saved);
    } else if IsManagerEvent(event) {
      WrongManagerStep(size, version, c, event);
    } else {
      WrongRunStep(world, size, version, c, event);
    }
  }

  lemma {:induction false} WrongRuns(world: World, size: nat, version: Version, from: Cell, events: seq<Event>,
                                     to: Cell)
    requires DEFAULT_SEGMENTED_TRANSFER_MIN_SIZE <= size && size != |world(version)|
    requires WrongInv(size, version, from) && Inv(Resized(world, version, size), Some(version), from)
    requires Leads(world, from, events, to)
    ensures WrongInv(size, version, to) && Inv(Resized(world, version, size), Some(version), to)
    decreases |events|
  {
    if events != [] {
      hide WrongInv, Inv, Next, Resized;
      WrongStepFits(world, size, version, from, events[0]);
      WrongStep(world, size, version, from, events[0]);
      WrongRuns(world, size, version, Next(world, from, events[0]).value, events[1..], to);
    }
  }

  /** A task that uses segments and was given a wrong size never publishes anything. */
  lemma WrongSizeStopsSegments(world: World, expectedSize: int, scheduledAt: Option<Time>, version: Version,
                               events: seq<Event>, c: Cell)
    requires DEFAULT_SEGMENTED_TRANSFER_MIN_SIZE <= expectedSize != |world(version)|
    requires Leads(world, Created(expectedSize, scheduledAt, true, Some(version)), events, c)
    ensures c.disk.dest.None?
    ensures WrongInv(expectedSize, version, c) && Inv(Resized(world, version, expectedSize), Some(version), c)
  {
    CreationEstablishes(Resized(world, version, expectedSize), expectedSize, scheduledAt, true, Some(version));
    WrongRuns(world, expectedSize, version, Created(expectedSize, scheduledAt, true, Some(version)), events, c);
  }
}
