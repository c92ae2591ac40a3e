/**
 Tasks whose own headers hold a Range. The engine sends it with every request that does not ask for a range
 itself, and takes a part it gets for the whole; this module says exactly for which tasks that can happen.
 */
module OwnRanges {
  import opened Basics
  import opened Checkpoints
  import opened Tasks
  import opened Recovery
  import opened TransferProtocol
  import opened TransferSafety
  import opened WrongSizes
  import opened TransferTheorems
  import opened TransferLimits
  import opened TransferSizes

  /** A state some honest run of a created task with these headers can reach. */
  ghost predicate ReachedWith(world: World, own: Option<ByteRange>, expectedSize: int, scheduledAt: Option<Time>,
                              acceptRanges: bool, validator: Option<Version>, events: seq<Event>, c: Cell) {
    LeadsWith(world, own, Created(expectedSize, scheduledAt, acceptRanges, validator), events, c)
  }

  /** The response states its length, and that of the representation if it is a part. */
  predicate Stated(response: Response) {
    && 0 <= response.length
    && (response.status == PARTIAL_CONTENT && response.range.Some? ==> 0 <= response.range.value.total)
  }

  predicate AllStated(events: seq<Event>) {
    forall i :: 0 <= i < |events| && events[i].Respond? ==> Stated(events[i].response)
  }

  /** A server may ignore a Range, so what can happen without one can happen with one. */
  lemma {:induction false} PlainRunsStay(world: World, own: Option<ByteRange>, from: Cell, events: seq<Event>, to: Cell)
    requires Leads(world, from, events, to)
    ensures LeadsWith(world, own, from, events, to)
    decreases |events|
  {
    if events != [] {
      hide Next;
      PlainRunsStay(world, own, Next(world, from, events[0]).value, events[1..], to);
    }
  }

  // ---------------------------------------------------------------------
  // A part is published as the whole

  /** The range asks for this part, which is not the whole version, and nothing the task knows tells them apart. */
  predicate Misleads(world: World, own: ByteRange, expectedSize: int, validator: Option<Version>,
                     version: Version, start: int, end: int) {
    && (validator.Some? ==> version == validator.value)
    && own.Allows(|world(version)|, start, end)
    && end - start + 1 < |world(version)|
    && (expectedSize <= 0 || expectedSize == end - start + 1)
  }

  /** The answer to a Range: a part with its length, or without. */
  function PartResponse(world: World, version: Version, start: nat, end: nat, stated: bool): Response {
    Response(PARTIAL_CONTENT, version, if stated then end - start + 1 else -1, None,
             Some(ContentRange(start, end, |world(version)|)), true, true)
  }

  function PartReply(version: Version, start: nat, end: nat, stated: bool): Reply {
    Reply(version, start, end - start + 1, if stated then end - start + 1 else -1, true)
  }

  lemma AnswersWithPart(world: World, own: ByteRange, c: Cell, request: Request, version: Version, start: nat, end: nat,
                        stated: bool)
    returns (after: Cell)
    requires Running(c, request, WorkOnly([]), Requested) && SingleRequest(request) && request.offset == 0
    requires request.validator.Some? ==> version == request.validator.value
    requires own.Allows(|world(version)|, start, end)
    requires stated && 0 < request.expectedSize ==> request.expectedSize == end - start + 1
    ensures LeadsWith(world, Some(own), c, [Respond(PartResponse(world, version, start, end, stated))], after)
    ensures Running(after, request, WorkOnly([]), Body(PartReply(version, start, end, stated), 0, false))
    ensures after.memory.task == c.memory.task
  {
    var event := Respond(PartResponse(world, version, start, end, stated));
    after := WithPhase(c, Body(PartReply(version, start, end, stated), 0, false));
    EmptyRun(world, Some(own), after);
    StepThen(world, Some(own), c, event, after, [], after);
  }

  lemma AnnouncesPart(world: World, c: Cell, request: Request, reply: Reply)
    requires Running(c, request, WorkOnly([]), Body(reply, 0, false))
    ensures Next(world, c, Announce).Some?
    ensures Running(Next(world, c, Announce).value, request, WorkOnly([]), Body(reply, 0, true))
  {
  }

  lemma ReceivesPart(world: World, c: Cell, request: Request, version: Version, start: nat, end: nat)
    requires start <= end < |world(version)|
    requires Running(c, request, WorkOnly([]), Body(PartReply(version, start, end, true), 0, true))
    ensures Next(world, c, Receive(end - start + 1)).Some?
    ensures Running(Next(world, c, Receive(end - start + 1)).value, request, WorkOnly(world(version)[start..end + 1]),
                    Body(PartReply(version, start, end, true), end - start + 1, true))
  {
    assert [] + world(version)[start..end + 1] == world(version)[start..end + 1];
  }

  lemma SealsPart(world: World, c: Cell, request: Request, version: Version, start: nat, end: nat, part: Bytes)
    requires start <= end && (request.expectedSize <= 0 || request.expectedSize == end - start + 1)
    requires Running(c, request, WorkOnly(part), Body(PartReply(version, start, end, true), end - start + 1, true))
    ensures Next(world, c, EndOfBody).Some?
    ensures Running(Next(world, c, EndOfBody).value, request, WorkOnly(part),
                    Sealed(end - start + 1, Proof(version, true)))
  {
  }

  function PartTransfer(world: World, version: Version, start: nat, end: nat): seq<Event>
    requires start <= end
  {
    [Respond(PartResponse(world, version, start, end, true))]
    + ([Announce] + ([Receive(end - start + 1)] + ([EndOfBody] + [LinkFile(true)])))
  }

  lemma PartRunIsStated(world: World, version: Version, start: nat, end: nat)
    requires start <= end
    ensures AllStated([StartRun, BeginTransfer(true)] + PartTransfer(world, version, start, end))
  {
  }

  /** The part arrives, passes for the whole, and is published. */
  lemma PartIsPublished(world: World, own: ByteRange, begun: Cell, request: Request, version: Version, start: nat,
                        end: nat)
    returns (after: Cell)
    requires Running(begun, request, WorkOnly([]), Requested) && SingleRequest(request) && request.offset == 0
    requires request.validator.Some? ==> version == request.validator.value
    requires own.Allows(|world(version)|, start, end)
    requires request.expectedSize <= 0 || request.expectedSize == end - start + 1
    ensures LeadsWith(world, Some(own), begun, PartTransfer(world, version, start, end), after)
    ensures after.disk.dest == Some(world(version)[start..end + 1]) && after.published == Some(Proof(version, true))
  {
    hide Next, LeadsWith, Running, PartResponse, PartReply;
    var own' := Some(own);
    var part := world(version)[start..end + 1];
    var reply := PartReply(version, start, end, true);
    var answered := AnswersWithPart(world, own, begun, request, version, start, end, true);
    AnnouncesPart(world, answered, request, reply);
    var announced := Next(world, answered, Announce).value;
    ReceivesPart(world, announced, request, version, start, end);
    var received := Next(world, announced, Receive(end - start + 1)).value;
    SealsPart(world, received, request, version, start, end, part);
    var ended := Next(world, received, EndOfBody).value;
    after := Publishes(world, ended, request, part, end - start + 1, Proof(version, true));
    PlainRunsStay(world, own', ended, [LinkFile(true)], after);
    StepThen(world, own', received, EndOfBody, ended, [LinkFile(true)], after);
    var tail := [EndOfBody] + [LinkFile(true)];
    StepThen(world, own', announced, Receive(end - start + 1), received, tail, after);
    StepThen(world, own', answered, Announce, announced, [Receive(end - start + 1)] + tail, after);
    var response := Respond(PartResponse(world, version, start, end, true));
    RunThen(world, own', begun, [response], answered, [Announce] + ([Receive(end - start + 1)] + tail), after);
  }

  /**
   A misleading range: an honest server answers with the part and states every length, and the part is
   published as the file. So it is for every task that does not use segments.
   */
  lemma OwnRangeTearsTheFile(world: World, own: ByteRange, expectedSize: int, scheduledAt: Option<Time>,
                             acceptRanges: bool, validator: Option<Version>, version: Version, start: nat, end: nat)
    returns (events: seq<Event>, c: Cell)
    requires !UsesSegments(expectedSize, acceptRanges, validator)
    requires Misleads(world, own, expectedSize, validator, version, start, end)
    ensures ReachedWith(world, Some(own), expectedSize, scheduledAt, acceptRanges, validator, events, c)
            && AllStated(events)
    ensures c.disk.dest == Some(world(version)[start..end + 1]) && Torn(world, c)
  {
    var created := Created(expectedSize, scheduledAt, acceptRanges, validator);
    var request := created.memory.request;
    assert SingleRequest(request);
    hide LeadsWith, Running, Created, PartTransfer, Torn;
    var begun := StartsAndOpens(world, created, []);
    PlainRunsStay(world, Some(own), created, [StartRun, BeginTransfer(true)], begun);
    c := PartIsPublished(world, own, begun, request, version, start, end);
    events := [StartRun, BeginTransfer(true)] + PartTransfer(world, version, start, end);
    RunThen(world, Some(own), created, [StartRun, BeginTransfer(true)], begun,
            PartTransfer(world, version, start, end), c);
    PartRunIsStated(world, version, start, end);
    ProperPartIsTorn(world, c, version, start, end);
  }

  lemma ProperPartIsTorn(world: World, c: Cell, version: Version, start: nat, end: nat)
    requires start <= end < |world(version)| && end - start + 1 < |world(version)|
    requires c.disk.dest == Some(world(version)[start..end + 1]) && c.published.Some?
    requires c.published.value.version == version
    ensures Torn(world, c)
  {
    assert |world(version)[start..end + 1]| == end - start + 1;
  }

  // ---------------------------------------------------------------------
  // Two places are spliced

  lemma ReceivesPartWhileStopping(world: World, c: Cell, request: Request, version: Version, start: nat, end: nat,
                                  cut: nat)
    requires start <= end < |world(version)| && cut <= end - start + 1
    requires Stopping(c, request, WorkOnly([]), Body(PartReply(version, start, end, false), 0, true))
    ensures Next(world, c, Receive(cut)).Some?
    ensures Stopping(Next(world, c, Receive(cut)).value, request, WorkOnly(world(version)[start..start + cut]),
                     Body(PartReply(version, start, end, false), cut, true))
    ensures Next(world, c, Receive(cut)).value.memory.task == c.memory.task
  {
    assert [] + world(version)[start..start + cut] == world(version)[start..start + cut];
  }

  /** The part of a Range begins to arrive, the task is paused before its first report, and resumed. */
  function PartPauses(world: World, version: Version, start: nat, end: nat, cut: nat): seq<Event> {
    [StartRun, BeginTransfer(true)]
    + ([Respond(PartResponse(world, version, start, end, false))]
       + ([Event.Pause] + ([Announce] + ([Receive(cut)] + StopAndResume()))))
  }

  lemma PartIsPaused(world: World, own: ByteRange, created: Cell, request: Request, version: Version, start: nat,
                     end: nat, cut: nat)
    returns (queued: Cell)
    requires own.Allows(|world(version)|, start, end) && 0 < cut <= end - start + 1
    requires created.memory.Up? && created.memory.task.state == Queued && created.memory.operation == Operation.Idle
    requires created.memory.request == request && SingleRequest(request) && created.disk == Disk(None, None, false)
    requires request.offset == 0 && request.expectedSize == created.memory.task.total
    requires request.validator == Some(version)
    requires 0 < request.expectedSize ==> cut <= request.expectedSize
    ensures LeadsWith(world, Some(own), created, PartPauses(world, version, start, end, cut), queued)
    ensures queued.memory.Up? && queued.memory.task.state == Queued && queued.memory.operation == Operation.Idle
    ensures queued.memory.request == request.(offset := cut)
            && queued.disk == WorkOnly(world(version)[start..start + cut])
  {
    hide Next, LeadsWith, Running, Stopping, PartResponse, PartReply;
    var own' := Some(own);
    var none: Bytes := [];
    var part := world(version)[start..start + cut];
    var reply := PartReply(version, start, end, false);
    var begun := StartsAndOpens(world, created, none);
    var answered := AnswersWithPart(world, own, begun, request, version, start, end, false);
    var stopping := Pauses(world, answered, request, WorkOnly(none), Body(reply, 0, false));
    ReportIsDropped(world, stopping, request, WorkOnly(none), reply, 0);
    var dropped := Next(world, stopping, Announce).value;
    ReceivesPartWhileStopping(world, dropped, request, version, start, end, cut);
    var received := Next(world, dropped, Receive(cut)).value;
    StoppingTask(received, request, WorkOnly(part), Body(reply, cut, true));
    queued := StopsAndResumes(world, received, request, part, reply, true);
    PlainRunsStay(world, own', created, [StartRun, BeginTransfer(true)], begun);
    PlainRunsStay(world, own', answered, [Event.Pause], stopping);
    PlainRunsStay(world, own', received, StopAndResume(), queued);
    StepThen(world, own', dropped, Receive(cut), received, StopAndResume(), queued);
    StepThen(world, own', stopping, Announce, dropped, [Receive(cut)] + StopAndResume(), queued);
    var tail := [Announce] + ([Receive(cut)] + StopAndResume());
    RunThen(world, own', answered, [Event.Pause], stopping, tail, queued);
    var response := Respond(PartResponse(world, version, start, end, false));
    RunThen(world, own', begun, [response], answered, [Event.Pause] + tail, queued);
    RunThen(world, own', created, [StartRun, BeginTransfer(true)], begun, [response] + ([Event.Pause] + tail), queued);
  }

  /** The answer to a resume: the rest of the version. */
  function RestResponse(world: World, version: Version, offset: nat): Response {
    Response(PARTIAL_CONTENT, version, |world(version)| - offset, None,
             Some(ContentRange(offset, |world(version)| - 1, |world(version)|)), true, true)
  }

  function RestReply(world: World, version: Version): Reply {
    Reply(version, 0, |world(version)|, |world(version)|, true)
  }

  lemma AnswersWithRest(world: World, c: Cell, request: Request, version: Version, bytes: Bytes)
    requires Running(c, request, WorkOnly(bytes), Requested) && SingleRequest(request)
    requires request.validator == Some(version) && 0 < request.offset == |bytes| < |world(version)|
    requires request.expectedSize <= 0 || request.expectedSize == |world(version)|
    ensures Next(world, c, Respond(RestResponse(world, version, |bytes|))).Some?
    ensures HonestEvent(world, c, Respond(RestResponse(world, version, |bytes|)))
    ensures Running(Next(world, c, Respond(RestResponse(world, version, |bytes|))).value, request, WorkOnly(bytes),
                    Body(RestReply(world, version), |bytes|, false))
  {
  }

  lemma ReceivesRest(world: World, c: Cell, request: Request, version: Version, bytes: Bytes)
    requires Running(c, request, WorkOnly(bytes), Body(RestReply(world, version), |bytes|, false))
    requires |bytes| <= |world(version)|
    ensures Next(world, c, Announce).Some?
    ensures var announced := Next(world, c, Announce).value;
            && Next(world, announced, Receive(|world(version)| - |bytes|)).Some?
            && Running(Next(world, announced, Receive(|world(version)| - |bytes|)).value, request,
                       WorkOnly(bytes + world(version)[|bytes|..]),
                       Body(RestReply(world, version), |world(version)|, true))
  {
    assert world(version)[|bytes|..|world(version)|] == world(version)[|bytes|..];
  }

  lemma SealsRest(world: World, c: Cell, request: Request, version: Version, bytes: Bytes)
    requires Running(c, request, WorkOnly(bytes), Body(RestReply(world, version), |world(version)|, true))
    requires request.expectedSize <= 0 || request.expectedSize == |world(version)|
    ensures Next(world, c, EndOfBody).Some?
    ensures Running(Next(world, c, EndOfBody).value, request, WorkOnly(bytes),
                    Sealed(|world(version)|, Proof(version, true)))
  {
  }

  function RestRun(world: World, version: Version, cut: nat): seq<Event>
    requires cut <= |world(version)|
  {
    [StartRun, BeginTransfer(true)]
    + ([Respond(RestResponse(world, version, cut))]
       + ([Announce] + ([Receive(|world(version)| - cut)] + ([EndOfBody] + [LinkFile(true)]))))
  }

  /** Whatever the work file holds, the rest of the version is appended to it and the result is published. */
  lemma RestIsAppended(world: World, c: Cell, version: Version, bytes: Bytes) returns (after: Cell)
    requires c.memory.Up? && c.memory.task.state == Queued && c.memory.operation == Operation.Idle
    requires SingleRequest(c.memory.request)
    requires c.memory.request.validator == Some(version) && c.disk == WorkOnly(bytes)
    requires 0 < c.memory.request.offset == |bytes| < |world(version)|
    requires c.memory.request.expectedSize <= 0 || c.memory.request.expectedSize == |world(version)|
    ensures Leads(world, c, RestRun(world, version, |bytes|), after)
    ensures after.disk.dest == Some(bytes + world(version)[|bytes|..]) && after.published == Some(Proof(version, true))
  {
    hide Next, LeadsWith, HonestTo, Running, RestResponse, RestReply;
    var request := c.memory.request;
    var all := bytes + world(version)[|bytes|..];
    var count: nat := |world(version)| - |bytes|;
    var begun := StartsAndOpens(world, c, bytes);
    var response := Respond(RestResponse(world, version, |bytes|));
    AnswersWithRest(world, begun, request, version, bytes);
    var answered := Next(world, begun, response).value;
    ReceivesRest(world, answered, request, version, bytes);
    var announced := Next(world, answered, Announce).value;
    var received := Next(world, announced, Receive(count)).value;
    SealsRest(world, received, request, version, all);
    var ended := Next(world, received, EndOfBody).value;
    after := Publishes(world, ended, request, all, |world(version)|, Proof(version, true));
    OnlyAnswersMatter(world, answered, announced, received, count);
    StepThen(world, None, received, EndOfBody, ended, [LinkFile(true)], after);
    var tail := [EndOfBody] + [LinkFile(true)];
    StepThen(world, None, announced, Receive(count), received, tail, after);
    StepThen(world, None, answered, Announce, announced, [Receive(count)] + tail, after);
    var rest := [Announce] + ([Receive(count)] + tail);
    StepThen(world, None, begun, response, answered, rest, after);
    RunThen(world, None, c, [StartRun, BeginTransfer(true)], begun, [response] + rest, after);
  }

  lemma OnlyAnswersMatter(world: World, answered: Cell, announced: Cell, received: Cell, count: nat)
    ensures HonestEvent(world, answered, Announce) && HonestEvent(world, announced, Receive(count))
            && HonestEvent(world, received, EndOfBody)
  {
  }

  lemma SpliceIsVouched(world: World, version: Version, start: nat, end: nat, cut: nat)
    requires cut <= |world(version)|
    ensures AllVouched(world, PartPauses(world, version, start, end, cut) + RestRun(world, version, cut))
  {
    var first: seq<Event> := PartPauses(world, version, start, end, cut);
    var second: seq<Event> := RestRun(world, version, cut);
    assert AllVouched(world, first) && AllVouched(world, second);
  }

  /**
   A range that does not begin at the beginning: the first part of what it asks for and the rest of the version
   are published as one file, although its size is known and right, or unknown, and every length is vouched for.
   */
  lemma OwnRangeSplices(world: World, own: ByteRange, expectedSize: int, scheduledAt: Option<Time>, acceptRanges: bool,
                        version: Version, start: nat, end: nat, cut: nat) returns (events: seq<Event>, c: Cell)
    requires !UsesSegments(expectedSize, acceptRanges, Some(version))
    requires own.Allows(|world(version)|, start, end) && 0 < cut <= end - start + 1 && cut < |world(version)|
    requires expectedSize <= 0 || expectedSize == |world(version)|
    ensures ReachedWith(world, Some(own), expectedSize, scheduledAt, acceptRanges, Some(version), events, c)
            && AllVouched(world, events)
    ensures c.disk.dest == Some(world(version)[start..start + cut] + world(version)[cut..])
    ensures Torn(world, c) <==> world(version)[start..start + cut] != world(version)[..cut]
  {
    var created := Created(expectedSize, scheduledAt, acceptRanges, Some(version));
    var request := created.memory.request;
    var part := world(version)[start..start + cut];
    assert SingleRequest(request);
    hide LeadsWith, Created, PartPauses, RestRun;
    var queued := PartIsPaused(world, own, created, request, version, start, end, cut);
    c := RestIsAppended(world, queued, version, part);
    PlainRunsStay(world, Some(own), queued, RestRun(world, version, cut), c);
    RunThen(world, Some(own), created, PartPauses(world, version, start, end, cut), queued,
            RestRun(world, version, cut), c);
    events := PartPauses(world, version, start, end, cut) + RestRun(world, version, cut);
    SpliceIsVouched(world, version, start, end, cut);
    assert world(version) == world(version)[..cut] + world(version)[cut..];
    assert (part + world(version)[cut..])[..cut] == part;
  }

  // ---------------------------------------------------------------------
  // Segments ask for their own ranges

  /** A task that uses segments never sends a request without a range of its own, so its headers do not matter. */
  lemma {:induction false} SegmentsIgnoreOwnRange(world: World, own: Option<ByteRange>, validator: Option<Version>,
                                                  from: Cell, events: seq<Event>, to: Cell)
    requires Inv(world, validator, from) && SegmentedInv(validator, from) && LeadsWith(world, own, from, events, to)
    ensures Leads(world, from, events, to)
    decreases |events|
  {
    if events != [] {
      SegmentedAsksForRanges(world, own, validator, from, events[0]);
      hide Inv, SegmentedInv, Next, HonestTo;
      var next := Next(world, from, events[0]).value;
      SegmentedStep(world, validator, from, events[0]);
      SegmentsIgnoreOwnRange(world, own, validator, next, events[1..], to);
    }
  }

  lemma SegmentedAsksForRanges(world: World, own: Option<ByteRange>, validator: Option<Version>, c: Cell, event: Event)
    requires Inv(world, validator, c) && SegmentedInv(validator, c)
    requires HonestTo(world, own, c, event) && Next(world, c, event).Some?
    ensures HonestEvent(world, c, event)
  {
  }

  lemma {:induction false} WrongSegmentsIgnoreOwnRange(world: World, own: Option<ByteRange>, size: nat,
                                                       version: Version, from: Cell, events: seq<Event>, to: Cell)
    requires DEFAULT_SEGMENTED_TRANSFER_MIN_SIZE <= size && size != |world(version)|
    requires WrongInv(size, version, from) && LeadsWith(world, own, from, events, to)
    ensures Leads(world, from, events, to)
    decreases |events|
  {
    if events != [] {
      WrongAsksForRanges(world, own, size, version, from, events[0]);
      hide WrongInv, Next, HonestTo;
      var next := Next(world, from, events[0]).value;
      WrongStep(world, size, version, from, events[0]);
      WrongSegmentsIgnoreOwnRange(world, own, size, version, next, events[1..], to);
    }
  }

  lemma WrongAsksForRanges(world: World, own: Option<ByteRange>, size: nat, version: Version, c: Cell, event: Event)
    requires WrongInv(size, version, c) && HonestTo(world, own, c, event) && Next(world, c, event).Some?
    ensures HonestEvent(world, c, event)
  {
    hide FreshCheckpoint, ValidCheckpoint, Downloaded, ManagerNext, RestoreStep;
  }

  /** Whatever Range is among its headers, a task that uses segments publishes the whole version or nothing. */
  lemma SegmentsAreSafeWithAnyRange(world: World, own: Option<ByteRange>, expectedSize: int, scheduledAt: Option<Time>,
                                    version: Version, events: seq<Event>, c: Cell)
    requires DEFAULT_SEGMENTED_TRANSFER_MIN_SIZE <= expectedSize
    requires ReachedWith(world, own, expectedSize, scheduledAt, true, Some(version), events, c)
    ensures Reached(world, expectedSize, scheduledAt, true, Some(version), events, c)
    ensures c.disk.dest.Some? ==> c.disk.dest.value == world(version)
    ensures !Torn(world, c)
  {
    var created := Created(expectedSize, scheduledAt, true, Some(version));
    if expectedSize == |world(version)| {
      CreationEstablishes(world, expectedSize, scheduledAt, true, Some(version));
      SegmentsIgnoreOwnRange(world, own, Some(version), created, events, c);
    } else {
      WrongSegmentsIgnoreOwnRange(world, own, expectedSize, version, created, events, c);
    }
    SegmentedTasksPublishTheirVersion(world, expectedSize, scheduledAt, Some(version), events, c);
    SegmentedIsNotTorn(world, expectedSize, scheduledAt, version, events, c);
  }

  // ---------------------------------------------------------------------
  // Stated lengths keep a given size

  /** The size given at creation is still known everywhere, and no segments are used. */
  predicate StatedInv(size: int, acceptRanges: bool, validator: Option<Version>, c: Cell) {
    && (c.store.Some? ==>
          && c.store.value.acceptRanges == acceptRanges && c.store.value.validator == validator
          && (c.store.value.task.state != Completed ==>
                c.store.value.task.total == size && c.store.value.checkpoint.None?))
    && (c.memory.Up? ==> KeepsRequest(size, acceptRanges, validator, c.memory.task, c.memory.request))
    && (c.memory.Up? && c.memory.run.Some? ==>
          && var Run(input, _, phase) := c.memory.run.value;
          && input.expectedSize == size && input.validator == validator && SingleRequest(input)
          && !phase.Segments? && !phase.Settled?
          && (phase.Body? ==> phase.reply.total == size))
  }

  predicate KeepsRequest(size: int, acceptRanges: bool, validator: Option<Version>, task: Task, request: Request) {
    && request.acceptRanges == acceptRanges && request.validator == validator
    && (task.state != Completed ==> task.total == size && request.expectedSize == size && SingleRequest(request))
  }

  lemma StatedRunStep(world: World, size: int, acceptRanges: bool, validator: Option<Version>, c: Cell, event: Event)
    requires 0 < size && StatedInv(size, acceptRanges, validator, c) && c.memory.Up? && c.memory.run.Some?
    requires (event.Respond? ==> Stated(event.response)) && RunNext(world, c, event).Some?
    ensures StatedInv(size, acceptRanges, validator, RunNext(world, c, event).value)
  {
    hide AcceptSegment, AcceptReply, PrepareAutomaticRetry;
    if event.Respond? {
      StatedAnswer(world, c.memory.run.value.input, event.response);
    } else if event.ExitRun? {
      RetryKeepsSize(c.memory.request, c.disk);
    }
  }

  lemma StatedAnswer(world: World, input: Request, response: Response)
    requires 0 < input.expectedSize && Stated(response)
    ensures var reply := AcceptReply(world, input, response).0; reply.Some? ==> reply.value.total == input.expectedSize
  {
  }

  lemma RetryKeepsSize(request: Request, disk: Disk)
    ensures var prepared := PrepareAutomaticRetry(request, disk).0;
            prepared == request.(offset := prepared.offset, checkpoint := None)
  {
  }

  lemma StatedManagerStep(size: int, acceptRanges: bool, validator: Option<Version>, c: Cell, event: Event)
    requires 0 < size && StatedInv(size, acceptRanges, validator, c) && c.memory.Up? && ManagerNext(c, event).Some?
    ensures StatedInv(size, acceptRanges, validator, ManagerNext(c, event).value)
  {
    hide PartialProgress;
  }

  lemma StatedRestore(size: int, acceptRanges: bool, validator: Option<Version>, c: Cell, now: Time, saved: bool)
    requires 0 < size && StatedInv(size, acceptRanges, validator, c) && RestoreStep(c, now, saved).Some?
    requires !UsesSegments(size, acceptRanges, validator)
    ensures StatedInv(size, acceptRanges, validator, RestoreStep(c, now, saved).value)
  {
  }

  lemma StatedStep(world: World, size: int, acceptRanges: bool, validator: Option<Version>, c: Cell, event: Event)
    requires 0 < size && !UsesSegments(size, acceptRanges, validator) && StatedInv(size, acceptRanges, validator, c)
    requires (event.Respond? ==> Stated(event.response)) && Next(world, c, event).Some?
    ensures StatedInv(size, acceptRanges, validator, Next(world, c, event).value)
  {
    hide StatedInv, RunNext, ManagerNext, RestoreStep;
    if c.memory.Down? {
      StatedRestore(size, acceptRanges, validator, c, event.now, event.saved);
    } else if IsManagerEvent(event) {
      StatedManagerStep(size, acceptRanges, validator, c, event);
    } else {
      StatedRunStep(world, size, acceptRanges, validator, c, event);
    }
  }

  // ---------------------------------------------------------------------
  // Ranges that do not mislead

  /**
   The same event of a task without a Range of its own: a part that is the whole is the whole, any other is refused.
   */
  function Plain(world: World, c: Cell, event: Event): Event {
    if event.Respond? && event.response.status == PARTIAL_CONTENT && c.memory.Up? && c.memory.run.Some?
       && c.memory.run.value.input.offset <= 0 then
      if AcceptReply(world, c.memory.run.value.input, event.response).0.Some?
      then Respond(event.response.(status := 200))
      else BreakOff(Permanent)
    else event
  }

  /** No part that the Range asks for can pass for the whole. */
  ghost predicate Harmless(world: World, own: Option<ByteRange>, expectedSize: int, validator: Option<Version>) {
    own.Some? ==>
      forall version, start, end :: !Misleads(world, own.value, expectedSize, validator, version, start, end)
  }

  lemma PlainStep(world: World, own: Option<ByteRange>, size: int, validator: Option<Version>, c: Cell, event: Event)
    requires Inv(world, validator, c) && Harmless(world, own, size, validator)
    requires 0 < size && c.memory.Up? && c.memory.run.Some? ==> c.memory.run.value.input.expectedSize == size
    requires HonestTo(world, own, c, event) && Next(world, c, event).Some?
    requires (event.Respond? ==> Stated(event.response))
    ensures var plain := Plain(world, c, event);
            && HonestEvent(world, c, plain) && Next(world, c, plain) == Next(world, c, event)
            && (plain.Respond? ==> Vouched(world, plain.response))
  {
    if event.Respond? && c.memory.Up? && c.memory.run.Some? && Plain(world, c, event) != event {
      PlainAnswer(world, own, size, validator, c, event.response);
    }
  }

  lemma PlainAnswer(world: World, own: Option<ByteRange>, size: int, validator: Option<Version>, c: Cell,
                    response: Response)
    requires Inv(world, validator, c) && Harmless(world, own, size, validator) && c.memory.Up? && c.memory.run.Some?
    requires 0 < size ==> c.memory.run.value.input.expectedSize == size
    requires response.status == PARTIAL_CONTENT && c.memory.run.value.input.offset == 0 && Stated(response)
    requires HonestTo(world, own, c, Respond(response)) && RespondStep(world, c, response).Some?
    ensures var plain := Plain(world, c, Respond(response));
            && HonestEvent(world, c, plain) && Next(world, c, plain) == RespondStep(world, c, response)
            && (plain.Respond? ==> Vouched(world, plain.response))
  {
    var range := response.range.value;
    if AcceptReply(world, c.memory.run.value.input, response).0.Some? {
      assert !Misleads(world, own.value, size, validator, response.version, range.start, range.end);
      assert range.Length() == |world(response.version)|;
    }
  }

  lemma {:induction false} PlainRuns(world: World, own: Option<ByteRange>, size: int, acceptRanges: bool,
                                     validator: Option<Version>, from: Cell, events: seq<Event>, to: Cell)
    returns (plain: seq<Event>)
    requires Inv(world, validator, from) && Harmless(world, own, size, validator)
    requires !UsesSegments(size, acceptRanges, validator)
    requires 0 < size ==> StatedInv(size, acceptRanges, validator, from)
    requires LeadsWith(world, own, from, events, to) && AllStated(events)
    ensures Leads(world, from, plain, to) && AllVouched(world, plain)
    decreases |events|
  {
    plain := [];
    if events != [] {
      hide Inv, Harmless, Next, HonestTo, Stated, Vouched, Plain;
      var event := events[0];
      var next := Next(world, from, event).value;
      if 0 < size {
        StatedInput(size, acceptRanges, validator, from);
        StatedStep(world, size, acceptRanges, validator, from, event);
      }
      hide StatedInv;
      PlainStep(world, own, size, validator, from, event);
      StepKeeps(world, validator, from, Plain(world, from, event));
      assert forall i :: 0 <= i < |events[1..]| ==> events[1..][i] == events[i + 1];
      var rest := PlainRuns(world, own, size, acceptRanges, validator, next, events[1..], to);
      plain := [Plain(world, from, event)] + rest;
      StepThen(world, None, from, Plain(world, from, event), next, rest, to);
    }
  }

  lemma StatedInput(size: int, acceptRanges: bool, validator: Option<Version>, c: Cell)
    requires StatedInv(size, acceptRanges, validator, c)
    ensures c.memory.Up? && c.memory.run.Some? ==> c.memory.run.value.input.expectedSize == size
  {
  }

  // ---------------------------------------------------------------------
  // A size that is too small, with stated lengths

  /** Nothing was ever accepted. */
  predicate NothingInv(c: Cell) {
    && c.disk.dest.None? && !c.disk.linked && WorkSize(c.disk) == 0
    && (c.memory.Up? && c.memory.task.state != Completed ==> c.memory.request.offset == 0)
    && (c.memory.Up? ==> c.memory.task.state != Completed)
    && (c.store.Some? ==> c.store.value.task.state != Completed)
    && (c.memory.Up? && c.memory.run.Some? ==>
          && var Run(input, _, phase) := c.memory.run.value;
          && input.offset == 0
          && (phase.Starting? || phase.Requested? || (phase.Returned? && phase.outcome.Failure?)))
  }

  lemma NothingIsAccepted(world: World, own: Option<ByteRange>, size: int, version: Version, input: Request,
                          response: Response)
    requires 0 < size < |world(version)| && Harmless(world, own, size, Some(version))
    requires input.expectedSize == size && input.validator == Some(version) && input.offset == 0
    requires Honest(world, own, response, Some(version), false) && Stated(response)
    ensures AcceptReply(world, input, response).0.None?
  {
    if own.Some? && response.range.Some? {
      assert !Misleads(world, own.value, size, Some(version), version, response.range.value.start,
                       response.range.value.end);
    }
  }

  lemma NothingRunStep(world: World, size: int, acceptRanges: bool, version: Version, c: Cell, event: Event)
    requires 0 < size && StatedInv(size, acceptRanges, Some(version), c) && NothingInv(c) && c.memory.Up?
    requires c.memory.run.Some?
    requires RunNext(world, c, event).Some?
    requires event.Respond? ==> AcceptReply(world, c.memory.run.value.input, event.response).0.None?
    ensures NothingInv(RunNext(world, c, event).value)
  {
    hide AcceptReply;
  }

  lemma NothingManagerStep(c: Cell, event: Event)
    requires NothingInv(c) && c.memory.Up? && ManagerNext(c, event).Some?
    ensures NothingInv(ManagerNext(c, event).value)
  {
  }

  lemma NothingRestore(c: Cell, now: Time, saved: bool)
    requires NothingInv(c) && RestoreStep(c, now, saved).Some?
    ensures NothingInv(RestoreStep(c, now, saved).value)
  {
    RecoveryOnlyRemovesWork(c.store.value, c.disk, now);
  }

  lemma NothingStep(world: World, own: Option<ByteRange>, size: int, acceptRanges: bool, version: Version, c: Cell,
                    event: Event)
    requires 0 < size < |world(version)| && Harmless(world, own, size, Some(version))
    requires StatedInv(size, acceptRanges, Some(version), c) && NothingInv(c)
    requires HonestTo(world, own, c, event) && Next(world, c, event).Some?
    requires (event.Respond? ==> Stated(event.response))
    ensures NothingInv(Next(world, c, event).value)
  {
    hide Harmless, RunNext, ManagerNext, RestoreStep, AcceptReply, Honest, Stated;
    if c.memory.Down? {
      NothingRestore(c, event.now, event.saved);
    } else if IsManagerEvent(event) {
      NothingManagerStep(c, event);
    } else {
      if event.Respond? {
        NothingIsAccepted(world, own, size, version, c.memory.run.value.input, event.response);
      }
      NothingRunStep(world, size, acceptRanges, version, c, event);
    }
  }

  lemma {:induction false} NothingRuns(world: World, own: Option<ByteRange>, size: int, acceptRanges: bool,
                                       version: Version, from: Cell, events: seq<Event>, to: Cell)
    requires 0 < size < |world(version)| && Harmless(world, own, size, Some(version))
    requires StatedInv(size, acceptRanges, Some(version), from) && NothingInv(from)
    requires !UsesSegments(size, acceptRanges, Some(version))
    requires LeadsWith(world, own, from, events, to) && AllStated(events)
    ensures NothingInv(to)
    decreases |events|
  {
    if events != [] {
      hide Harmless, StatedInv, NothingInv, Next, HonestTo, Stated;
      var event := events[0];
      NothingStep(world, own, size, acceptRanges, version, from, event);
      StatedStep(world, size, acceptRanges, Some(version), from, event);
      assert forall i :: 0 <= i < |events[1..]| ==> events[1..][i] == events[i + 1];
      NothingRuns(world, own, size, acceptRanges, version, Next(world, from, event).value, events[1..], to);
    }
  }

  // ---------------------------------------------------------------------
  // Which tasks are in danger

  ghost predicate CanTearStated(world: World, own: Option<ByteRange>, expectedSize: int, scheduledAt: Option<Time>,
                                acceptRanges: bool, validator: Option<Version>) {
    exists events, c ::
      && ReachedWith(world, own, expectedSize, scheduledAt, acceptRanges, validator, events, c)
      && AllStated(events) && Torn(world, c)
  }

  /** With stated lengths, a range that cannot mislead, or none, tears nothing, whatever size was given. */
  lemma HarmlessIsNotTorn(world: World, own: Option<ByteRange>, expectedSize: int, scheduledAt: Option<Time>,
                          acceptRanges: bool, validator: Option<Version>, events: seq<Event>, c: Cell)
    requires !UsesSegments(expectedSize, acceptRanges, validator) && Harmless(world, own, expectedSize, validator)
    requires ReachedWith(world, own, expectedSize, scheduledAt, acceptRanges, validator, events, c) && AllStated(events)
    ensures !Torn(world, c)
  {
    hide Harmless, Torn;
    var created := Created(expectedSize, scheduledAt, acceptRanges, validator);
    if SizeGivenRight(world, expectedSize, acceptRanges, validator) {
      CreationEstablishes(world, expectedSize, scheduledAt, acceptRanges, validator);
      var plain := PlainRuns(world, own, expectedSize, acceptRanges, validator, created, events, c);
      VouchedIsNotTorn(world, expectedSize, scheduledAt, acceptRanges, validator, plain, c);
    } else {
      NothingRuns(world, own, expectedSize, acceptRanges, validator.value, created, events, c);
      NothingIsNotTorn(world, c);
    }
  }

  /**
   With servers that state every length: a task can be torn if and only if it does not use segments and there
   is a Range among its own headers that asks for a part which can pass for the whole.
   */
  lemma OwnRangesTearExactly(world: World, own: Option<ByteRange>, expectedSize: int, scheduledAt: Option<Time>,
                             acceptRanges: bool, validator: Option<Version>)
    ensures CanTearStated(world, own, expectedSize, scheduledAt, acceptRanges, validator)
            <==> && !UsesSegments(expectedSize, acceptRanges, validator)
                 && own.Some?
                 && exists version, start, end ::
                   Misleads(world, own.value, expectedSize, validator, version, start, end)
  {
    hide Torn, ReachedWith, Misleads, AllStated;
    if UsesSegments(expectedSize, acceptRanges, validator) {
      forall events, c | ReachedWith(world, own, expectedSize, scheduledAt, acceptRanges, validator, events, c)
        ensures !Torn(world, c)
      {
        SegmentsAreSafeWithAnyRange(world, own, expectedSize, scheduledAt, validator.value, events, c);
      }
    } else if Harmless(world, own, expectedSize, validator) {
      forall events, c
        | ReachedWith(world, own, expectedSize, scheduledAt, acceptRanges, validator, events, c) && AllStated(events)
        ensures !Torn(world, c)
      {
        HarmlessIsNotTorn(world, own, expectedSize, scheduledAt, acceptRanges, validator, events, c);
      }
    } else {
      var version, start, end :| Misleads(world, own.value, expectedSize, validator, version, start, end);
      MisleadsIsNat(world, own.value, expectedSize, validator, version, start, end);
      var events, c := OwnRangeTearsTheFile(world, own.value, expectedSize, scheduledAt, acceptRanges, validator,
                                            version, start, end);
    }
  }

  lemma MisleadsIsNat(world: World, own: ByteRange, expectedSize: int, validator: Option<Version>, version: Version,
                      start: int, end: int)
    requires Misleads(world, own, expectedSize, validator, version, start, end)
    ensures 0 <= start <= end
  {
  }
}
