/**
 Transfers that succeed: from every state in which a run starts there is an honest run of the protocol that ends with
 the whole version in the destination, for both kinds of transfer, and for lengths stated or not.
 */
module Completion {
  import opened Basics
  import opened Checkpoints
  import opened Tasks
  import opened TransferProtocol
  import opened TransferSafety
  import opened TransferLimits
  import opened TransferSizes
  import opened TransferTheorems

  /** How a server puts an honest answer: whether it states the length, names the version, and marks the end. */
  datatype Manner = Manner(stated: bool, named: bool, marked: bool)

  // ---------------------------------------------------------------------
  // Publishing

  /** The task downloads undisturbed, and its run is in this phase. */
  predicate InPhase(c: Cell, input: Request, phase: Phase) {
    && c.memory.Up? && c.memory.task.state == Downloading && c.memory.operation == Operation.Idle
    && c.memory.run == Some(Run(input, NoCause, phase))
  }

  /** The task is over, and its file is this one. */
  predicate Completes(c: Cell, bytes: Bytes) {
    && c.memory.Up? && c.memory.task.state == Completed && c.memory.run.None? && c.memory.task.error.None?
    && c.memory.task.downloaded == c.memory.task.total == |bytes|
    && c.disk == Disk(None, Some(bytes), false)
    && c.store == Some(Stored(c.memory.task, c.memory.request))
  }

  function Publication(maxRetries: nat, retryAt: Time): seq<Event> {
    [LinkFile(true)] + ([UnlinkWork(true)] + [ExitRun(maxRetries, retryAt)])
  }

  lemma PublishedStep(world: World, c: Cell, input: Request, size: int, proof: Proof, bytes: Bytes, maxRetries: nat,
                      retryAt: Time)
    requires InPhase(c, input, Sealed(size, proof)) && c.disk == Disk(Some(bytes), None, false) && size == |bytes|
    ensures Next(world, c, LinkFile(true)).Some?
    ensures var linked := Next(world, c, LinkFile(true)).value;
            && Next(world, linked, UnlinkWork(true)).Some?
            && var unlinked := Next(world, linked, UnlinkWork(true)).value;
               && Next(world, unlinked, ExitRun(maxRetries, retryAt)).Some?
               && Completes(Next(world, unlinked, ExitRun(maxRetries, retryAt)).value, bytes)
  {
  }

  /** A finished work file becomes the destination, and the task is completed. */
  lemma Publishing(world: World, c: Cell, input: Request, size: int, proof: Proof, bytes: Bytes, maxRetries: nat,
                   retryAt: Time) returns (after: Cell)
    requires InPhase(c, input, Sealed(size, proof)) && c.disk == Disk(Some(bytes), None, false) && size == |bytes|
    ensures Leads(world, c, Publication(maxRetries, retryAt), after) && Completes(after, bytes)
  {
    PublishedStep(world, c, input, size, proof, bytes, maxRetries, retryAt);
    hide Next, LeadsWith, InPhase, Completes;
    var linked := Next(world, c, LinkFile(true)).value;
    var unlinked := Next(world, linked, UnlinkWork(true)).value;
    after := Next(world, unlinked, ExitRun(maxRetries, retryAt)).value;
    EmptyRun(world, None, after);
    StepThen(world, None, unlinked, ExitRun(maxRetries, retryAt), after, [], after);
    assert [ExitRun(maxRetries, retryAt)] + [] == [ExitRun(maxRetries, retryAt)];
    StepThen(world, None, linked, UnlinkWork(true), unlinked, [ExitRun(maxRetries, retryAt)], after);
    StepThen(world, None, c, LinkFile(true), linked, [UnlinkWork(true)] + [ExitRun(maxRetries, retryAt)], after);
  }

  /** Four honest steps are a run. */
  lemma FourSteps(world: World, a: Cell, first: Event, b: Cell, second: Event, c: Cell, third: Event, d: Cell,
                  fourth: Event, e: Cell)
    requires HonestEvent(world, a, first) && Next(world, a, first) == Some(b)
    requires HonestEvent(world, b, second) && Next(world, b, second) == Some(c)
    requires HonestEvent(world, c, third) && Next(world, c, third) == Some(d)
    requires HonestEvent(world, d, fourth) && Next(world, d, fourth) == Some(e)
    ensures Leads(world, a, [first] + ([second] + ([third] + [fourth])), e)
  {
    hide Next, LeadsWith, HonestTo;
    EmptyRun(world, None, e);
    StepThen(world, None, d, fourth, e, [], e);
    assert [fourth] + [] == [fourth];
    StepThen(world, None, c, third, d, [fourth], e);
    StepThen(world, None, b, second, c, [third] + [fourth], e);
    StepThen(world, None, a, first, b, [second] + ([third] + [fourth]), e);
  }

  // ---------------------------------------------------------------------
  // One segment

  predicate Complete(segment: SegmentProgress) {
    segment.completed == segment.Length()
  }

  /** The honest answer to a worker: exactly the rest of its segment, with its length or without. */
  function SegmentRest(version: Version, checkpoint: TransferCheckpoint, i: nat, manner: Manner): Response
    requires i < |checkpoint.segments|
  {
    var segment := checkpoint.segments[i];
    var start := segment.start + segment.completed;
    Response(PARTIAL_CONTENT, version, if manner.stated then segment.end - start + 1 else -1,
             if manner.named then Some(version) else None, Some(ContentRange(start, segment.end, checkpoint.total)),
             true, manner.stated || manner.marked)
  }

  /** The workers before `n` have succeeded, the others are where they were launched. */
  ghost predicate Fetched(c: Cell, input: Request, n: nat) {
    && c.memory.Up? && c.memory.run.Some? && c.memory.run.value.phase.Segments?
    && var phase := c.memory.run.value.phase;
    && InPhase(c, input, Segments(phase.checkpoint, phase.workers, true))
    && n <= |phase.workers| == |phase.checkpoint.segments|
    && (forall j :: 0 <= j < n ==> phase.workers[j] == Finished(true) && Complete(phase.checkpoint.segments[j]))
    && (forall j :: n <= j < |phase.workers| ==>
          phase.workers[j] == if Complete(phase.checkpoint.segments[j]) then Finished(true) else Asking)
  }

  /** The run is in the segmented phase, with these counters and workers. */
  predicate At(c: Cell, input: Request, checkpoint: TransferCheckpoint, workers: seq<Worker>) {
    InPhase(c, input, Segments(checkpoint, workers, true)) && |workers| == |checkpoint.segments| && c.disk.work.Some?
  }

  /** A worker that asks takes the rest of its segment, in whatever manner it is answered. */
  lemma HonestSegmentIsTaken(world: World, version: Version, c: Cell, input: Request, checkpoint: TransferCheckpoint,
                             workers: seq<Worker>, i: nat, manner: Manner)
    requires Inv(world, Some(version), c) && At(c, input, checkpoint, workers)
    requires i < |workers| && workers[i] == Asking && !Complete(checkpoint.segments[i])
    ensures var event := SegmentRespond(i, SegmentRest(version, checkpoint, i, manner));
            && HonestEvent(world, c, event) && Next(world, c, event).Some?
            && At(Next(world, c, event).value, input, checkpoint, workers[i := Receiving(version, 0)])
            && Inv(world, Some(version), Next(world, c, event).value)
  {
    SegmentBounds(world, version, c, input, checkpoint, workers, i);
    AnswerIsTaken(world, version, c, input, checkpoint, workers, i, manner);
    hide Inv, Next;
    StepKeeps(world, Some(version), c, SegmentRespond(i, SegmentRest(version, checkpoint, i, manner)));
  }

  lemma SegmentBounds(world: World, version: Version, c: Cell, input: Request, checkpoint: TransferCheckpoint,
                      workers: seq<Worker>, i: nat)
    requires Inv(world, Some(version), c) && At(c, input, checkpoint, workers) && i < |workers|
    ensures var segment := checkpoint.segments[i];
            0 <= segment.start <= segment.end < checkpoint.total == |world(version)|
            && 0 <= segment.completed <= segment.Length()
    ensures input.validator == Some(version)
  {
    TilesSplit(checkpoint.segments, 0, checkpoint.total, i);
    hide Sound, WorkersOK, Fits;
  }

  lemma AnswerIsTaken(world: World, version: Version, c: Cell, input: Request, checkpoint: TransferCheckpoint,
                      workers: seq<Worker>, i: nat, manner: Manner)
    requires At(c, input, checkpoint, workers) && i < |workers| && workers[i] == Asking
    requires input.validator == Some(version) && checkpoint.total == |world(version)|
    requires !Complete(checkpoint.segments[i])
    requires var segment := checkpoint.segments[i];
             0 <= segment.start <= segment.end < checkpoint.total && 0 <= segment.completed <= segment.Length()
    ensures var event := SegmentRespond(i, SegmentRest(version, checkpoint, i, manner));
            && HonestEvent(world, c, event) && Next(world, c, event).Some?
            && At(Next(world, c, event).value, input, checkpoint, workers[i := Receiving(version, 0)])
  {
  }

  lemma RestIsWritten(world: World, version: Version, c: Cell, input: Request, checkpoint: TransferCheckpoint,
                      workers: seq<Worker>, i: nat)
    requires Inv(world, Some(version), c) && At(c, input, checkpoint, workers)
    requires i < |workers| && workers[i] == Receiving(version, 0)
    ensures var segment := checkpoint.segments[i];
            var rest := segment.Length() - segment.completed;
            && 0 <= rest && Next(world, c, SegmentWrite(i, rest)).Some?
            && At(Next(world, c, SegmentWrite(i, rest)).value, input, checkpoint,
                  workers[i := Receiving(version, rest)])
            && Inv(world, Some(version), Next(world, c, SegmentWrite(i, rest)).value)
  {
    hide Inv, Next;
    var rest := checkpoint.segments[i].Length() - checkpoint.segments[i].completed;
    SegmentBounds(world, version, c, input, checkpoint, workers, i);
    FileHasItsSize(world, version, c);
    RestFits(world, version, c, input, checkpoint, workers, i, rest);
    FreeToWrite(world, c, c, c, i, rest);
    StepKeeps(world, Some(version), c, SegmentWrite(i, rest));
  }

  lemma RestFits(world: World, version: Version, c: Cell, input: Request, checkpoint: TransferCheckpoint,
                 workers: seq<Worker>, i: nat, rest: nat)
    requires At(c, input, checkpoint, workers) && i < |workers| && workers[i] == Receiving(version, 0)
    requires c.disk.work.Some? && |c.disk.work.value| == checkpoint.total == |world(version)|
    requires var segment := checkpoint.segments[i];
             && 0 <= segment.start <= segment.end < checkpoint.total && 0 <= segment.completed <= segment.Length()
             && rest == segment.Length() - segment.completed
    ensures Next(world, c, SegmentWrite(i, rest)).Some?
    ensures At(Next(world, c, SegmentWrite(i, rest)).value, input, checkpoint, workers[i := Receiving(version, rest)])
  {
    hide WriteAt;
  }

  lemma FileHasItsSize(world: World, version: Version, c: Cell)
    requires Inv(world, Some(version), c) && c.memory.Up? && c.memory.run.Some? && c.memory.run.value.phase.Segments?
    ensures c.disk.work.Some? && |c.disk.work.value| == c.memory.run.value.phase.checkpoint.total
  {
  }

  lemma RestIsCounted(world: World, version: Version, c: Cell, input: Request, checkpoint: TransferCheckpoint,
                      workers: seq<Worker>, i: nat, rest: nat)
    requires Inv(world, Some(version), c) && At(c, input, checkpoint, workers)
    requires i < |workers| && workers[i] == Receiving(version, rest)
    ensures var next := Next(world, c, SegmentCount(i, false));
            && next.Some? && Inv(world, Some(version), next.value)
            && At(next.value, input, CountBytes(checkpoint, i, rest), workers[i := Receiving(version, 0)])
  {
    hide Inv;
    StepKeeps(world, Some(version), c, SegmentCount(i, false));
  }

  lemma FilledSegmentEnds(world: World, version: Version, c: Cell, input: Request, checkpoint: TransferCheckpoint,
                          workers: seq<Worker>, i: nat)
    requires Inv(world, Some(version), c) && At(c, input, checkpoint, workers)
    requires i < |workers| && workers[i] == Receiving(version, 0) && Complete(checkpoint.segments[i])
    ensures var next := Next(world, c, SegmentEnd(i));
            && next.Some? && Inv(world, Some(version), next.value)
            && At(next.value, input, checkpoint, workers[i := Finished(true)])
  {
    hide Inv;
    StepKeeps(world, Some(version), c, SegmentEnd(i));
  }

  function SegmentFetch(version: Version, checkpoint: TransferCheckpoint, i: nat, manner: Manner): seq<Event>
    requires i < |checkpoint.segments|
  {
    var segment := checkpoint.segments[i];
    if Complete(segment) then []
    else
      [SegmentRespond(i, SegmentRest(version, checkpoint, i, manner))]
      + ([SegmentWrite(i, Max(segment.Length() - segment.completed, 0))] + ([SegmentCount(i, false)] + [SegmentEnd(i)]))
  }

  lemma FreeToWrite(world: World, taken: Cell, written: Cell, counted: Cell, i: nat, rest: nat)
    ensures HonestEvent(world, taken, SegmentWrite(i, rest))
    ensures HonestEvent(world, written, SegmentCount(i, false)) && HonestEvent(world, counted, SegmentEnd(i))
  {
  }

  lemma CountingCompletes(checkpoint: TransferCheckpoint, i: nat, rest: nat)
    requires i < |checkpoint.segments|
    ensures |CountBytes(checkpoint, i, rest).segments| == |checkpoint.segments|
    ensures checkpoint.segments[i].completed + rest == checkpoint.segments[i].Length() ==>
              Complete(CountBytes(checkpoint, i, rest).segments[i])
  {
  }

  lemma RestArrives(world: World, version: Version, c: Cell, input: Request, checkpoint: TransferCheckpoint,
                    workers: seq<Worker>, i: nat, manner: Manner, rest: nat) returns (taken: Cell, written: Cell)
    requires Inv(world, Some(version), c) && At(c, input, checkpoint, workers) && |workers| == |checkpoint.segments|
    requires i < |workers| && workers[i] == Asking && !Complete(checkpoint.segments[i])
    requires rest == Max(checkpoint.segments[i].Length() - checkpoint.segments[i].completed, 0)
    ensures var response := SegmentRespond(i, SegmentRest(version, checkpoint, i, manner));
            HonestEvent(world, c, response) && Next(world, c, response) == Some(taken)
    ensures Next(world, taken, SegmentWrite(i, rest)) == Some(written)
    ensures Inv(world, Some(version), written) && At(written, input, checkpoint, workers[i := Receiving(version, rest)])
    ensures checkpoint.segments[i].completed + rest == checkpoint.segments[i].Length()
  {
    hide Inv, At, Next, SegmentRest, HonestTo;
    HonestSegmentIsTaken(world, version, c, input, checkpoint, workers, i, manner);
    taken := Next(world, c, SegmentRespond(i, SegmentRest(version, checkpoint, i, manner))).value;
    var reading := workers[i := Receiving(version, 0)];
    RestIsWritten(world, version, taken, input, checkpoint, reading, i);
    written := Next(world, taken, SegmentWrite(i, rest)).value;
    assert reading[i := Receiving(version, rest)] == workers[i := Receiving(version, rest)];
  }

  lemma RestSettles(world: World, version: Version, c: Cell, input: Request, checkpoint: TransferCheckpoint,
                    workers: seq<Worker>, i: nat, rest: nat) returns (counted: Cell, after: Cell)
    requires i < |workers| == |checkpoint.segments|
    requires Inv(world, Some(version), c) && At(c, input, checkpoint, workers[i := Receiving(version, rest)])
    requires checkpoint.segments[i].completed + rest == checkpoint.segments[i].Length()
    ensures Next(world, c, SegmentCount(i, false)) == Some(counted)
            && Next(world, counted, SegmentEnd(i)) == Some(after)
    ensures Inv(world, Some(version), after)
    ensures At(after, input, CountBytes(checkpoint, i, rest), workers[i := Finished(true)])
  {
    CountingCompletes(checkpoint, i, rest);
    hide Inv, At, Next, CountBytes, Complete;
    var reading := workers[i := Receiving(version, rest)];
    RestIsCounted(world, version, c, input, checkpoint, reading, i, rest);
    counted := Next(world, c, SegmentCount(i, false)).value;
    FilledSegmentEnds(world, version, counted, input, CountBytes(checkpoint, i, rest),
                      reading[i := Receiving(version, 0)], i);
    after := Next(world, counted, SegmentEnd(i)).value;
    assert reading[i := Receiving(version, 0)][i := Finished(true)] == workers[i := Finished(true)];
  }

  /** A worker that asks fetches the whole rest of its segment. */
  lemma RestIsFetched(world: World, version: Version, c: Cell, input: Request, checkpoint: TransferCheckpoint,
                      workers: seq<Worker>, i: nat, manner: Manner) returns (after: Cell)
    requires Inv(world, Some(version), c) && At(c, input, checkpoint, workers)
    requires i < |workers| == |checkpoint.segments| && workers[i] == Asking && !Complete(checkpoint.segments[i])
    ensures Leads(world, c, SegmentFetch(version, checkpoint, i, manner), after) && Inv(world, Some(version), after)
    ensures var rest := Max(checkpoint.segments[i].Length() - checkpoint.segments[i].completed, 0);
            At(after, input, CountBytes(checkpoint, i, rest), workers[i := Finished(true)])
  {
    hide Inv, At, Next, LeadsWith, SegmentRest, HonestTo, CountBytes;
    var rest: nat := Max(checkpoint.segments[i].Length() - checkpoint.segments[i].completed, 0);
    var taken, written := RestArrives(world, version, c, input, checkpoint, workers, i, manner, rest);
    var counted, last := RestSettles(world, version, written, input, checkpoint, workers, i, rest);
    after := last;
    FreeToWrite(world, taken, written, counted, i, rest);
    FourSteps(world, c, SegmentRespond(i, SegmentRest(version, checkpoint, i, manner)), taken, SegmentWrite(i, rest),
              written, SegmentCount(i, false), counted, SegmentEnd(i), after);
  }

  lemma SegmentIsFetched(world: World, version: Version, c: Cell, input: Request, i: nat, manner: Manner)
    returns (events: seq<Event>, after: Cell)
    requires Inv(world, Some(version), c) && Fetched(c, input, i) && i < |c.memory.run.value.phase.workers|
    ensures Leads(world, c, events, after) && Inv(world, Some(version), after) && Fetched(after, input, i + 1)
    ensures |after.memory.run.value.phase.workers| == |c.memory.run.value.phase.workers|
    ensures GoesOn(events)
  {
    FileHasItsSize(world, version, c);
    hide Inv, LeadsWith, SegmentRest;
    var checkpoint, workers := c.memory.run.value.phase.checkpoint, c.memory.run.value.phase.workers;
    events, after := SegmentFetch(version, checkpoint, i, manner), c;
    if Complete(checkpoint.segments[i]) {
      EmptyRun(world, None, c);
    } else {
      after := RestIsFetched(world, version, c, input, checkpoint, workers, i, manner);
    }
  }

  /** All segments, one after the other, each answered in its own manner. */
  lemma {:induction false} SegmentsAreFetched(world: World, version: Version, c: Cell, input: Request, i: nat,
                                              manners: nat -> Manner)
    returns (events: seq<Event>, after: Cell)
    requires Inv(world, Some(version), c) && Fetched(c, input, i)
    ensures Leads(world, c, events, after) && Inv(world, Some(version), after) && after.memory.Up?
            && after.memory.run.Some?
    ensures after.memory.run.value.phase.Segments? && Fetched(after, input, |after.memory.run.value.phase.workers|)
    ensures GoesOn(events)
    decreases |c.memory.run.value.phase.workers| - i
  {
    if i == |c.memory.run.value.phase.workers| {
      events, after := [], c;
      EmptyRun(world, None, c);
    } else {
      var first, mid := SegmentIsFetched(world, version, c, input, i, manners(i));
      hide Inv, LeadsWith;
      var rest, last := SegmentsAreFetched(world, version, mid, input, i + 1, manners);
      RunThen(world, None, c, first, mid, rest, last);
      events, after := first + rest, last;
    }
  }

  // ---------------------------------------------------------------------
  // Segmented transfers

  /** A run of a task that uses segments begins with all workers that have something to fetch. */
  lemma WorkersAreLaunched(world: World, version: Version, c: Cell, input: Request) returns (after: Cell)
    requires Inv(world, Some(version), c) && InPhase(c, input, Starting) && Segmented(input)
    ensures Leads(world, c, [BeginTransfer(true)] + [SegmentAnnounce], after)
    ensures Inv(world, Some(version), after) && Fetched(after, input, 0)
  {
    var begun := Next(world, c, BeginTransfer(true)).value;
    SegmentsBegin(world, version, c, input);
    StepKeeps(world, Some(version), c, BeginTransfer(true));
    AnnounceLaunches(world, begun, input);
    after := Next(world, begun, SegmentAnnounce).value;
    hide Inv, Next, LeadsWith, Fetched;
    StepKeeps(world, Some(version), begun, SegmentAnnounce);
    EmptyRun(world, None, after);
    StepThen(world, None, begun, SegmentAnnounce, after, [], after);
    assert [SegmentAnnounce] + [] == [SegmentAnnounce];
    StepThen(world, None, c, BeginTransfer(true), begun, [SegmentAnnounce], after);
  }

  lemma SegmentsBegin(world: World, version: Version, c: Cell, input: Request)
    requires Inv(world, Some(version), c) && InPhase(c, input, Starting) && Segmented(input)
    ensures Next(world, c, BeginTransfer(true)).Some?
    ensures var begun := Next(world, c, BeginTransfer(true)).value;
            && begun.memory.Up? && begun.memory.run.Some? && begun.memory.run.value.phase.Segments?
            && InPhase(begun, input, Segments(begun.memory.run.value.phase.checkpoint, [], false))
  {
    EntryConditions(world, Some(version), c);
    hide Inv, ValidCheckpoint, FreshCheckpoint, Downloaded;
  }

  lemma AnnounceLaunches(world: World, c: Cell, input: Request)
    requires c.memory.Up? && c.memory.run.Some? && c.memory.run.value.phase.Segments?
    requires InPhase(c, input, Segments(c.memory.run.value.phase.checkpoint, [], false))
    ensures Next(world, c, SegmentAnnounce).Some? && Fetched(Next(world, c, SegmentAnnounce).value, input, 0)
  {
    hide AcceptsReport;
  }

  /** When every worker has succeeded, the file is sealed. */
  lemma FetchedIsSealed(world: World, version: Version, c: Cell, input: Request) returns (after: Cell)
    requires Inv(world, Some(version), c) && c.memory.Up? && c.memory.run.Some? && c.memory.run.value.phase.Segments?
    requires Fetched(c, input, |c.memory.run.value.phase.workers|)
    ensures Leads(world, c, [SegmentsSettle] + [SegmentsConclude], after)
    ensures InPhase(after, input, Sealed(|world(version)|, Proof(version, true)))
    ensures after.disk == Disk(Some(world(version)), None, false)
  {
    var checkpoint := c.memory.run.value.phase.checkpoint;
    AllIsCounted(world, version, c, input);
    SettlesCleanly(world, c, input);
    var settled := Next(world, c, SegmentsSettle).value;
    StepKeeps(world, Some(version), c, SegmentsSettle);
    Concludes(world, version, settled, input, checkpoint);
    after := Next(world, settled, SegmentsConclude).value;
    SealedIsWhole(world, version, after, input);
    hide Inv, Next, LeadsWith, InPhase;
    EmptyRun(world, None, after);
    StepThen(world, None, settled, SegmentsConclude, after, [], after);
    assert [SegmentsConclude] + [] == [SegmentsConclude];
    StepThen(world, None, c, SegmentsSettle, settled, [SegmentsConclude], after);
  }

  lemma AllIsCounted(world: World, version: Version, c: Cell, input: Request)
    requires Inv(world, Some(version), c) && c.memory.Up? && c.memory.run.Some? && c.memory.run.value.phase.Segments?
    requires Fetched(c, input, |c.memory.run.value.phase.workers|)
    ensures var checkpoint := c.memory.run.value.phase.checkpoint;
            && ValidCheckpoint(checkpoint, checkpoint.total)
            && Downloaded(checkpoint) == checkpoint.total == |world(version)|
            && c.disk.work.Some? && |c.disk.work.value| == checkpoint.total && input.validator == Some(version)
  {
    var checkpoint := c.memory.run.value.phase.checkpoint;
    DownloadedBounds(checkpoint, checkpoint.total);
    hide Sound, WorkersOK, Fits;
  }

  lemma SettlesCleanly(world: World, c: Cell, input: Request)
    requires c.memory.Up? && c.memory.run.Some? && c.memory.run.value.phase.Segments?
    requires Fetched(c, input, |c.memory.run.value.phase.workers|)
    ensures Next(world, c, SegmentsSettle).Some?
    ensures var settled := Next(world, c, SegmentsSettle).value;
            InPhase(settled, input, Settled(c.memory.run.value.phase.checkpoint, true)) && settled.disk == c.disk
  {
    hide AcceptsReport;
  }

  lemma Concludes(world: World, version: Version, c: Cell, input: Request, checkpoint: TransferCheckpoint)
    requires Inv(world, Some(version), c) && InPhase(c, input, Settled(checkpoint, true))
    requires input.validator == Some(version)
    requires ValidCheckpoint(checkpoint, checkpoint.total)
    requires Downloaded(checkpoint) == checkpoint.total == |world(version)|
    requires c.disk.work.Some? && |c.disk.work.value| == checkpoint.total
    ensures Next(world, c, SegmentsConclude).Some?
    ensures InPhase(Next(world, c, SegmentsConclude).value, input, Sealed(|world(version)|, Proof(version, true)))
    ensures Inv(world, Some(version), Next(world, c, SegmentsConclude).value)
  {
    hide Inv, ValidCheckpoint, Downloaded;
    StepKeeps(world, Some(version), c, SegmentsConclude);
  }

  lemma SealedIsWhole(world: World, version: Version, c: Cell, input: Request)
    requires Inv(world, Some(version), c) && InPhase(c, input, Sealed(|world(version)|, Proof(version, true)))
    ensures c.disk == Disk(Some(world(version)), None, false)
  {
  }

  /**
   From every state in which a run of a segmented task starts, on whatever its checkpoint holds: an honest server
   answers each worker with the rest of its segment, each in any manner, and the run ends with the whole version.
   */
  lemma SegmentedTransferCompletes(world: World, version: Version, c: Cell, input: Request, manners: nat -> Manner,
                                   maxRetries: nat, retryAt: Time) returns (events: seq<Event>, after: Cell)
    requires Inv(world, Some(version), c) && InPhase(c, input, Starting) && Segmented(input)
    ensures Leads(world, c, events, after) && GoesOn(events) && Completes(after, world(version))
  {
    hide Inv, LeadsWith, InPhase, Fetched, Completes;
    var launched := WorkersAreLaunched(world, version, c, input);
    FetchedPhase(launched, input, 0);
    var fetches, fetched := SegmentsAreFetched(world, version, launched, input, 0, manners);
    var sealed := FetchedIsSealed(world, version, fetched, input);
    after := Publishing(world, sealed, input, |world(version)|, Proof(version, true), world(version), maxRetries,
                        retryAt);
    var publication := Publication(maxRetries, retryAt);
    RunThen(world, None, fetched, [SegmentsSettle] + [SegmentsConclude], sealed, publication, after);
    var ending := [SegmentsSettle] + [SegmentsConclude] + publication;
    RunThen(world, None, launched, fetches, fetched, ending, after);
    RunThen(world, None, c, [BeginTransfer(true)] + [SegmentAnnounce], launched, fetches + ending, after);
    events := [BeginTransfer(true)] + [SegmentAnnounce] + (fetches + ending);
  }

  lemma FetchedPhase(c: Cell, input: Request, n: nat)
    requires Fetched(c, input, n)
    ensures c.memory.Up? && c.memory.run.Some? && c.memory.run.value.phase.Segments?
  {
  }

  // ---------------------------------------------------------------------
  // Single-connection transfers

  /** The honest answer to a single connection: the whole version, or exactly what is missing. */
  function WholeOrRest(world: World, version: Version, offset: nat, manner: Manner, total: bool): Response
    requires offset <= |world(version)|
  {
    var size := |world(version)|;
    var named := if manner.named then Some(version) else None;
    if offset == 0 then
      Response(200, version, if manner.stated then size else -1, named, None, true, manner.stated || manner.marked)
    else
      Response(PARTIAL_CONTENT, version, if manner.stated then size - offset else -1, named,
               Some(ContentRange(offset, size - 1, if total then size else -1)), true, manner.stated || manner.marked)
  }

  /** Everything arrives: the answer, its first report, its bytes, and its end. */
  function WholeBody(world: World, version: Version, offset: nat, manner: Manner, total: bool): seq<Event>
    requires offset <= |world(version)|
  {
    [Respond(WholeOrRest(world, version, offset, manner, total))]
    + ([Announce] + ([Receive(|world(version)| - offset)] + [EndOfBody]))
  }

  /** An honest answer with the whole version or the rest of it is taken, in whatever manner it is put. */
  lemma HonestAnswerIsTaken(world: World, c: Cell, input: Request, version: Version, offset: nat, manner: Manner,
                            total: bool)
    returns (reply: Reply)
    requires InPhase(c, input, Requested) && input.offset == offset
    requires input.validator.Some? ==> version == input.validator.value
    requires offset == 0 || offset < |world(version)|
    requires input.expectedSize <= 0 || input.expectedSize == |world(version)|
    ensures var event := Respond(WholeOrRest(world, version, offset, manner, total));
            && HonestEvent(world, c, event) && Next(world, c, event).Some?
            && InPhase(Next(world, c, event).value, input, Body(reply, offset, false))
    ensures reply.version == version && reply.limit == |world(version)| && reply.shift == 0
    ensures reply.total == -1 || reply.total == |world(version)|
  {
    var response := WholeOrRest(world, version, offset, manner, total);
    reply := AcceptReply(world, input, response).0.value;
  }

  lemma BodyIsAnnounced(world: World, c: Cell, input: Request, reply: Reply, offset: nat)
    requires InPhase(c, input, Body(reply, offset, false))
    ensures Next(world, c, Announce).Some? && InPhase(Next(world, c, Announce).value, input, Body(reply, offset, true))
    ensures Next(world, c, Announce).value.disk == c.disk
  {
  }

  lemma BodyArrives(world: World, c: Cell, input: Request, reply: Reply, offset: nat)
    requires InPhase(c, input, Body(reply, offset, true)) && c.disk.work.Some?
    requires reply.shift == 0 && offset <= reply.limit == |world(reply.version)|
    ensures Next(world, c, Receive(reply.limit - offset)).Some?
    ensures InPhase(Next(world, c, Receive(reply.limit - offset)).value, input, Body(reply, reply.limit, true))
  {
  }

  lemma WholeBodyIsSealed(world: World, validator: Option<Version>, c: Cell, input: Request, reply: Reply)
    returns (proof: Proof)
    requires Inv(world, validator, c) && InPhase(c, input, Body(reply, reply.limit, true))
    requires reply.limit == |world(reply.version)|
    requires input.expectedSize <= 0 || input.expectedSize == reply.limit
    ensures Next(world, c, EndOfBody).Some?
    ensures var ended := Next(world, c, EndOfBody).value;
            InPhase(ended, input, Sealed(reply.limit, proof))
              && ended.disk == Disk(Some(world(reply.version)), None, false)
  {
    var ended := Next(world, c, EndOfBody).value;
    proof := ended.memory.run.value.phase.proof;
    assert world(reply.version)[..reply.limit] == world(reply.version);
    hide AcceptsReport, ReportedTask;
  }

  lemma BodyHasAFile(world: World, validator: Option<Version>, c: Cell, input: Request, reply: Reply, offset: nat)
    requires Inv(world, validator, c) && InPhase(c, input, Body(reply, offset, true))
    ensures c.disk.work.Some?
  {
  }

  lemma BodyIsFetched(world: World, validator: Option<Version>, c: Cell, input: Request, version: Version, offset: nat,
                      manner: Manner, total: bool) returns (after: Cell, proof: Proof)
    requires Inv(world, validator, c) && InPhase(c, input, Requested) && input.offset == offset
    requires input.validator == validator
    requires (validator.Some? ==> version == validator.value) && (offset == 0 || offset < |world(version)|)
    requires input.expectedSize <= 0 || input.expectedSize == |world(version)|
    ensures Leads(world, c, WholeBody(world, version, offset, manner, total), after)
    ensures InPhase(after, input, Sealed(|world(version)|, proof))
            && after.disk == Disk(Some(world(version)), None, false)
  {
    hide Inv, Next, LeadsWith, InPhase, WholeOrRest, HonestTo;
    var answer := Respond(WholeOrRest(world, version, offset, manner, total));
    var reply := HonestAnswerIsTaken(world, c, input, version, offset, manner, total);
    var answered := Next(world, c, answer).value;
    StepKeeps(world, validator, c, answer);
    FreeOfServers(world, answered);
    BodyIsAnnounced(world, answered, input, reply, offset);
    var announced := Next(world, answered, Announce).value;
    StepKeeps(world, validator, answered, Announce);
    BodyHasAFile(world, validator, announced, input, reply, offset);
    var count: nat := reply.limit - offset;
    FreeToReceive(world, announced, count);
    BodyArrives(world, announced, input, reply, offset);
    var received := Next(world, announced, Receive(count)).value;
    StepKeeps(world, validator, announced, Receive(count));
    FreeOfServers(world, received);
    proof := WholeBodyIsSealed(world, validator, received, input, reply);
    after := Next(world, received, EndOfBody).value;
    FourSteps(world, c, answer, answered, Announce, announced, Receive(count), received, EndOfBody, after);
  }

  lemma FreeOfServers(world: World, c: Cell)
    ensures HonestEvent(world, c, Announce) && HonestEvent(world, c, EndOfBody)
    ensures HonestEvent(world, c, BeginTransfer(true)) && HonestEvent(world, c, StartRun)
  {
  }

  lemma FreeToReceive(world: World, c: Cell, count: nat)
    ensures HonestEvent(world, c, Receive(count))
  {
  }

  lemma SingleBegins(world: World, validator: Option<Version>, c: Cell, input: Request)
    requires Inv(world, validator, c) && InPhase(c, input, Starting) && !Segmented(input)
    ensures Next(world, c, BeginTransfer(true)).Some?
            && Inv(world, validator, Next(world, c, BeginTransfer(true)).value)
    ensures InPhase(Next(world, c, BeginTransfer(true)).value, input,
                    if 0 < input.expectedSize == input.offset then Sealed(input.offset, SizeProof(world, input))
                    else Requested)
    ensures input.validator == validator && 0 <= input.offset && (0 < input.offset ==> validator.Some?)
  {
    EntryConditions(world, validator, c);
    StepKeeps(world, validator, c, BeginTransfer(true));
  }

  /** What has the size of the version already is the version. */
  lemma CompleteFileIsSealed(world: World, version: Version, c: Cell, input: Request, proof: Proof)
    requires Inv(world, Some(version), c) && InPhase(c, input, Sealed(|world(version)|, proof))
    requires proof.version == version
    ensures c.disk == Disk(Some(world(version)), None, false)
  {
    var work := c.disk.work.value;
    assert work <= world(version) && work == world(version)[..|work|];
    assert world(version)[..|world(version)|] == world(version);
  }

  /** What is missing arrives and is published. */
  lemma RestCompletes(world: World, validator: Option<Version>, c: Cell, begun: Cell, input: Request, version: Version,
                      offset: nat, manner: Manner, total: bool, maxRetries: nat, retryAt: Time)
    returns (events: seq<Event>, after: Cell)
    requires HonestEvent(world, c, BeginTransfer(true)) && Next(world, c, BeginTransfer(true)) == Some(begun)
    requires Inv(world, validator, begun) && InPhase(begun, input, Requested) && input.validator == validator
    requires (validator.Some? ==> version == validator.value) && input.offset == offset
    requires offset == 0 || offset < |world(version)|
    requires input.expectedSize <= 0 || input.expectedSize == |world(version)|
    ensures Leads(world, c, events, after) && GoesOn(events) && Completes(after, world(version))
  {
    hide Inv, Next, LeadsWith, InPhase, Completes, HonestTo, WholeOrRest;
    var publication, body := Publication(maxRetries, retryAt), WholeBody(world, version, offset, manner, total);
    var sealed, proof := BodyIsFetched(world, validator, begun, input, version, offset, manner, total);
    after := Publishing(world, sealed, input, |world(version)|, proof, world(version), maxRetries, retryAt);
    RunThen(world, None, begun, body, sealed, publication, after);
    StepThen(world, None, c, BeginTransfer(true), begun, body + publication, after);
    events := [BeginTransfer(true)] + (body + publication);
  }

  /**
   From every state in which a run of a single connection starts, with a size that is right or unknown: an honest
   server answers with the whole version, or with what is missing, in any manner, and the run ends with the whole
   version. Only a file that is complete without the task knowing it has no answer.
   */
  lemma SingleTransferCompletes(world: World, validator: Option<Version>, c: Cell, input: Request, version: Version,
                                manner: Manner, total: bool, maxRetries: nat, retryAt: Time)
    returns (events: seq<Event>, after: Cell)
    requires Inv(world, validator, c) && InPhase(c, input, Starting) && !Segmented(input)
    requires validator.Some? ==> version == validator.value
    requires input.expectedSize <= 0 || input.expectedSize == |world(version)|
    requires 0 < input.offset ==> input.offset < |world(version)| || 0 < input.expectedSize
    ensures Leads(world, c, events, after) && GoesOn(events) && Completes(after, world(version))
  {
    hide Inv, Next, LeadsWith, InPhase, Completes, Segmented, HonestTo;
    SingleBegins(world, validator, c, input);
    FreeOfServers(world, c);
    SingleFits(world, validator, c, input, version);
    var begun := Next(world, c, BeginTransfer(true)).value;
    if 0 < input.expectedSize == input.offset {
      var publication := Publication(maxRetries, retryAt);
      CompleteFileIsSealed(world, version, begun, input, SizeProof(world, input));
      after := Publishing(world, begun, input, input.offset, SizeProof(world, input), world(version), maxRetries,
                          retryAt);
      StepThen(world, None, c, BeginTransfer(true), begun, publication, after);
      events := [BeginTransfer(true)] + publication;
    } else {
      events, after := RestCompletes(world, validator, c, begun, input, version, input.offset, manner, total,
                                     maxRetries, retryAt);
    }
  }

  /** What is there is the beginning of the version. */
  lemma SingleFits(world: World, validator: Option<Version>, c: Cell, input: Request, version: Version)
    requires Inv(world, validator, c) && InPhase(c, input, Starting) && !Segmented(input)
    requires validator.Some? ==> version == validator.value
    ensures 0 <= input.offset && (0 < input.offset ==> input.offset <= |world(version)|)
  {
  }

  // ---------------------------------------------------------------------
  // Which queued tasks can succeed

  lemma QueuedStarts(world: World, validator: Option<Version>, c: Cell)
    requires Inv(world, validator, c) && c.memory.Up? && c.memory.task.state == Queued
    requires c.memory.operation == Operation.Idle
    ensures Next(world, c, StartRun).Some? && Inv(world, validator, Next(world, c, StartRun).value)
    ensures InPhase(Next(world, c, StartRun).value, c.memory.request, Starting)
    ensures Segmented(c.memory.request) == c.memory.request.allowSegments
  {
    StepKeeps(world, validator, c, StartRun);
  }

  /** A queued task that misses something, or knows that it does not, can be completed. */
  lemma QueuedTaskCompletes(world: World, version: Version, c: Cell, manners: nat -> Manner, total: bool,
                            maxRetries: nat, retryAt: Time)
    returns (events: seq<Event>, after: Cell)
    requires Inv(world, Some(version), c) && c.memory.Up? && c.memory.task.state == Queued
    requires c.memory.operation == Operation.Idle
    requires var request := c.memory.request;
             || request.allowSegments
             || ((request.expectedSize <= 0 || request.expectedSize == |world(version)|)
                 && (0 < request.offset ==> request.offset < |world(version)| || 0 < request.expectedSize))
    ensures Leads(world, c, events, after) && GoesOn(events) && Completes(after, world(version))
  {
    QueuedStarts(world, Some(version), c);
    FreeOfServers(world, c);
    hide Inv, Next, LeadsWith, InPhase, Completes, Segmented, HonestTo;
    var started := Next(world, c, StartRun).value;
    var rest;
    if c.memory.request.allowSegments {
      rest, after := SegmentedTransferCompletes(world, version, started, c.memory.request, manners, maxRetries,
                                                retryAt);
    } else {
      rest, after := SingleTransferCompletes(world, Some(version), started, c.memory.request, version, manners(0),
                                             total, maxRetries, retryAt);
    }
    StepThen(world, None, c, StartRun, started, rest, after);
    events := [StartRun] + rest;
  }

  /** The file has all bytes of the version, but nothing says so: there is no rest to ask for. */
  predicate Stuck(world: World, version: Version, c: Cell) {
    && c.disk.dest.None? && !c.disk.linked
    && (c.memory.Up? ==>
          && c.memory.task.state != Completed
          && (IsActiveState(c.memory.task.state) ==>
                c.memory.operation == Operation.Idle || c.memory.operation == Closing)
          && (c.memory.task.state == Downloading ==> c.memory.operation == Operation.Idle)
          && (IsActiveState(c.memory.task.state) ==>
                StuckRequest(world, version, c.memory.request) && WorkSize(c.disk) == |world(version)|))
    && (c.memory.Up? && c.memory.run.Some? ==>
          && StuckRequest(world, version, c.memory.run.value.input)
          && c.memory.task.state != Queued && c.memory.task.state != Retrying
          && (c.memory.task.state == Downloading ==> c.memory.run.value.cause == NoCause)
          && var phase := c.memory.run.value.phase;
             phase.Starting? || phase.Requested? || (phase.Returned? && phase.outcome.Failure?))
  }

  predicate StuckRequest(world: World, version: Version, request: Request) {
    && SingleRequest(request) && request.validator == Some(version)
    && 0 < request.offset == |world(version)| && request.expectedSize <= 0
  }

  lemma NoRestIsTaken(world: World, version: Version, input: Request, response: Response)
    requires StuckRequest(world, version, input) && Honest(world, None, response, Some(version), true)
    ensures AcceptReply(world, input, response).0.None?
  {
  }

  lemma StuckRunStep(world: World, version: Version, c: Cell, event: Event)
    requires Stuck(world, version, c) && c.memory.Up? && c.memory.run.Some? && HonestEvent(world, c, event)
    requires RunNext(world, c, event).Some?
    ensures Stuck(world, version, RunNext(world, c, event).value)
  {
    if event.Respond? {
      NoRestIsTaken(world, version, c.memory.run.value.input, event.response);
    }
    hide AcceptReply, Honest;
  }

  lemma StuckManagerStep(world: World, version: Version, c: Cell, event: Event)
    requires Stuck(world, version, c) && c.memory.Up? && ManagerNext(c, event).Some? && !TakesUpAgain(event)
    ensures Stuck(world, version, ManagerNext(c, event).value)
  {
    hide PartialProgress;
  }

  lemma {:induction false} StuckRuns(world: World, version: Version, from: Cell, events: seq<Event>, to: Cell)
    requires Stuck(world, version, from) && Leads(world, from, events, to) && GoesOn(events)
    ensures Stuck(world, version, to)
    decreases |events|
  {
    if events != [] {
      hide Stuck, ManagerNext, RunNext, RestoreStep;
      var event := events[0];
      assert !TakesUpAgain(event);
      assert forall i :: 0 <= i < |events[1..]| ==> events[1..][i] == events[i + 1];
      if IsManagerEvent(event) {
        StuckManagerStep(world, version, from, event);
      } else {
        StuckRunStep(world, version, from, event);
      }
      StuckRuns(world, version, Next(world, from, event).value, events[1..], to);
    }
  }

  lemma QueuedIsStuck(world: World, version: Version, c: Cell)
    requires Inv(world, Some(version), c) && c.memory.Up? && c.memory.task.state == Queued
    requires !c.memory.request.allowSegments && c.memory.request.expectedSize <= 0
    requires 0 < c.memory.request.offset && |world(version)| <= c.memory.request.offset
    ensures Stuck(world, version, c)
  {
  }

  /**
   The exact condition: from a queued task whose size is right or unknown, going on can complete the whole version if
   and only if it uses segments, or misses a byte, or has none yet, or knows its size. A single connection that has all
   bytes and forgot their number asks for a range that no server can answer.
   */
  lemma QueuedTaskCompletesExactly(world: World, version: Version, c: Cell)
    requires Inv(world, Some(version), c) && c.memory.Up? && c.memory.task.state == Queued
    requires c.memory.operation == Operation.Idle
    requires !c.memory.request.allowSegments ==>
               c.memory.request.expectedSize <= 0 || c.memory.request.expectedSize == |world(version)|
    ensures (exists events, after ::
             Leads(world, c, events, after) && GoesOn(events) && Completes(after, world(version)))
            <==> var request := c.memory.request;
                 request.allowSegments || request.offset == 0 || request.offset < |world(version)|
                   || 0 < request.expectedSize
  {
    var request := c.memory.request;
    hide LeadsWith, Inv, Completes;
    if request.allowSegments || request.offset == 0 || request.offset < |world(version)| || 0 < request.expectedSize {
      QueuedOffsetIsNatural(world, Some(version), c);
      var manner := Manner(true, true, true);
      var events, after := QueuedTaskCompletes(world, version, c, (i: nat) => manner, true, 0, 0);
      assert Leads(world, c, events, after) && GoesOn(events) && Completes(after, world(version));
    } else {
      QueuedOffsetIsNatural(world, Some(version), c);
      QueuedIsStuck(world, version, c);
      forall events, after | Leads(world, c, events, after) && GoesOn(events)
        ensures !Completes(after, world(version))
      {
        StuckRuns(world, version, c, events, after);
        StuckIsNotComplete(world, version, after);
      }
    }
  }

  lemma QueuedOffsetIsNatural(world: World, validator: Option<Version>, c: Cell)
    requires Inv(world, validator, c) && c.memory.Up? && c.memory.task.state == Queued
    ensures !c.memory.request.allowSegments ==> 0 <= c.memory.request.offset
  {
  }

  lemma StuckIsNotComplete(world: World, version: Version, c: Cell)
    requires Stuck(world, version, c)
    ensures !Completes(c, world(version))
  {
  }
}
