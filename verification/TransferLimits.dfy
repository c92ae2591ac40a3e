/**
 Honest runs on which a file is torn, written out step by step for every resource, every version and every
 cut: one for a size that was forgotten, one for a size that was too small from the start.
 */
module TransferLimits {
  import opened Basics
  import opened Tasks
  import opened TransferProtocol
  import opened TransferSafety
  import opened TransferTheorems

  // ---------------------------------------------------------------------
  // Steps

  function WorkOnly(bytes: Bytes): Disk {
    Disk(Some(bytes), None, false)
  }

  /** The transfer goroutine works undisturbed. */
  predicate Running(c: Cell, request: Request, disk: Disk, phase: Phase) {
    && c.memory.Up? && c.memory.task.state == Downloading && c.memory.operation == Operation.Idle
    && c.memory.run == Some(Run(request, NoCause, phase)) && c.memory.request == request && c.disk == disk
  }

  /** A single-connection request for a task with one stream and no checkpoint. */
  predicate SingleRequest(request: Request) {
    request.checkpoint.None? && !request.allowSegments
  }

  lemma StartsAndOpens(world: World, c: Cell, bytes: Bytes) returns (after: Cell)
    requires c.memory.Up? && c.memory.task.state == Queued && c.memory.operation == Operation.Idle
    requires SingleRequest(c.memory.request) && c.memory.request.offset == |bytes|
    requires c.disk == if bytes == [] then Disk(None, None, false) else WorkOnly(bytes)
    requires 0 < c.memory.request.expectedSize ==> |bytes| <= c.memory.request.expectedSize
    ensures var request := c.memory.request;
            && Leads(world, c, [StartRun, BeginTransfer(true)], after)
            && (if 0 < request.expectedSize == |bytes|
                then Running(after, request, WorkOnly(bytes), Sealed(|bytes|, SizeProof(world, request)))
                else Running(after, request, WorkOnly(bytes), Requested))
            && after.memory.task.total == c.memory.task.total
  {
    var started := StartStep(c).value;
    after := Begin(world, started, true);
    assert Leads(world, after, [], after);
    StepThen(world, None, started, BeginTransfer(true), after, [], after);
    StepThen(world, None, c, StartRun, started, [BeginTransfer(true)], after);
  }

  /** A body without a stated length, from the bytes that are there to the end of the version. */
  function LengthlessResponse(world: World, version: Version, offset: nat, framed: bool): Response {
    if offset == 0 then Response(200, version, -1, None, None, true, framed)
    else Response(206, version, -1, None, Some(ContentRange(offset, |world(version)| - 1, -1)), true, framed)
  }

  function LengthlessReply(world: World, version: Version, framed: bool): Reply {
    Reply(version, 0, |world(version)|, -1, framed)
  }

  lemma AnswersWithoutLength(world: World, c: Cell, request: Request, version: Version, disk: Disk, framed: bool)
    returns (after: Cell)
    requires Running(c, request, disk, Requested) && SingleRequest(request)
    requires request.validator.Some? ==> version == request.validator.value
    requires 0 <= request.offset < |world(version)|
    ensures Leads(world, c, [Respond(LengthlessResponse(world, version, request.offset, framed))], after)
    ensures Running(after, request, disk, Body(LengthlessReply(world, version, framed), request.offset, false))
    ensures after.memory.task == c.memory.task
  {
    var event := Respond(LengthlessResponse(world, version, request.offset, framed));
    after := WithPhase(c, Body(LengthlessReply(world, version, framed), request.offset, false));
    assert Leads(world, after, [], after);
    StepThen(world, None, c, event, after, [], after);
  }

  lemma AnnouncesUnknownSize(world: World, c: Cell, request: Request, disk: Disk, reply: Reply, downloaded: nat)
    returns (after: Cell)
    requires Running(c, request, disk, Body(reply, downloaded, false)) && reply.total == -1
    ensures Leads(world, c, [Announce], after)
    ensures Running(after, request, disk, Body(reply, downloaded, true)) && after.memory.task.total == -1
  {
    after := ReportStep(c, true).value;
    assert Leads(world, after, [], after);
    StepThen(world, None, c, Announce, after, [], after);
  }

  lemma Receives(world: World, c: Cell, request: Request, version: Version, framed: bool, downloaded: nat, cut: nat)
    requires downloaded <= cut <= |world(version)|
    requires Running(c, request, WorkOnly(world(version)[..downloaded]),
                     Body(LengthlessReply(world, version, framed), downloaded, true))
    ensures Next(world, c, Receive(cut - downloaded)).Some?
    ensures Running(Next(world, c, Receive(cut - downloaded)).value, request, WorkOnly(world(version)[..cut]),
                    Body(LengthlessReply(world, version, framed), cut, true))
  {
    PrefixGrows(world(version), downloaded, cut - downloaded);
  }

  lemma SealsWhatArrived(world: World, c: Cell, request: Request, version: Version, cut: nat)
    requires cut <= |world(version)| && request.expectedSize <= 0
    requires Running(c, request, WorkOnly(world(version)[..cut]),
                     Body(LengthlessReply(world, version, false), cut, true))
    ensures Next(world, c, EndOfBody).Some?
    ensures Running(Next(world, c, EndOfBody).value, request, WorkOnly(world(version)[..cut]),
                    Sealed(cut, Proof(version, false)))
  {
  }

  lemma Publishes(world: World, c: Cell, request: Request, bytes: Bytes, size: int, proof: Proof) returns (after: Cell)
    requires Running(c, request, WorkOnly(bytes), Sealed(size, proof))
    ensures Leads(world, c, [LinkFile(true)], after)
    ensures after.disk.dest == Some(bytes) && after.published == Some(proof)
  {
    after := LinkStep(c, true).value;
    assert Leads(world, after, [], after);
    StepThen(world, None, c, LinkFile(true), after, [], after);
  }

  /** The rest of a body arrives up to `cut`, its connection ends there, and the file is published. */
  lemma EndsAndPublishes(world: World, c: Cell, request: Request, version: Version, downloaded: nat, cut: nat)
    returns (after: Cell)
    requires downloaded <= cut <= |world(version)| && request.expectedSize <= 0
    requires Running(c, request, WorkOnly(world(version)[..downloaded]),
                     Body(LengthlessReply(world, version, false), downloaded, true))
    ensures Leads(world, c, [Receive(cut - downloaded), EndOfBody, LinkFile(true)], after)
    ensures after.disk.dest == Some(world(version)[..cut]) && after.published == Some(Proof(version, false))
  {
    hide Next, Running;
    Receives(world, c, request, version, false, downloaded, cut);
    var received := Next(world, c, Receive(cut - downloaded)).value;
    SealsWhatArrived(world, received, request, version, cut);
    var ended := Next(world, received, EndOfBody).value;
    after := Publishes(world, ended, request, world(version)[..cut], cut, Proof(version, false));
    StepThen(world, None, received, EndOfBody, ended, [LinkFile(true)], after);
    StepThen(world, None, c, Receive(cut - downloaded), received, [EndOfBody, LinkFile(true)], after);
  }

  // ---------------------------------------------------------------------
  // A pause in the middle of a body

  /** A paused task whose transfer has not noticed it yet. */
  predicate Stopping(c: Cell, request: Request, disk: Disk, phase: Phase) {
    && c.memory.Up? && c.memory.task.state == TaskState.Paused && c.memory.operation == Pausing
    && c.memory.run == Some(Run(request, NoCause, phase)) && c.memory.request == request && c.disk == disk
  }

  lemma Pauses(world: World, c: Cell, request: Request, disk: Disk, phase: Phase) returns (after: Cell)
    requires Running(c, request, disk, phase)
    ensures Leads(world, c, [Event.Pause], after)
    ensures Stopping(after, request, disk, phase) && after.memory.task == PausedTask(c.memory.task)
  {
    after := PauseStep(c).value;
    assert Leads(world, after, [], after);
    StepThen(world, None, c, Event.Pause, after, [], after);
  }

  /** The stored record and the operation of a paused task whose run has ended. */
  predicate Stopped(c: Cell, task: Task, request: Request, disk: Disk) {
    c.memory == Up(task, request, None, Pausing) && c.disk == disk
  }

  lemma StopsTransfer(world: World, c: Cell, request: Request, disk: Disk, reply: Reply, downloaded: int,
                      announced: bool)
    returns (after: Cell)
    requires Stopping(c, request, disk, Body(reply, downloaded, announced))
    ensures Leads(world, c, [SignalRun, BreakOff(Interrupted), ExitRun(0, 0)], after)
    ensures Stopped(after, c.memory.task, request, disk)
  {
    var signaled := c.(memory := c.memory.(run := Some(c.memory.run.value.(cause := PauseCause))));
    var ended := Run(request, PauseCause, Returned(Failure(Interrupted)));
    var broken := signaled.(memory := signaled.memory.(run := Some(ended)));
    after := c.(memory := c.memory.(run := None));
    assert Leads(world, after, [], after);
    StepThen(world, None, broken, ExitRun(0, 0), after, [], after);
    StepThen(world, None, signaled, BreakOff(Interrupted), broken, [ExitRun(0, 0)], after);
    StepThen(world, None, c, SignalRun, signaled, [BreakOff(Interrupted), ExitRun(0, 0)], after);
  }

  lemma CompletesPause(world: World, c: Cell, task: Task, request: Request, bytes: Bytes)
    requires Stopped(c, task, request, WorkOnly(bytes)) && SingleRequest(request) && task.state == TaskState.Paused
    requires !(0 < task.total < |bytes|)
    ensures Next(world, c, FinishPause(true)).Some?
    ensures var after := Next(world, c, FinishPause(true)).value;
            after.memory == Up(task.(downloaded := |bytes|), request, None, Operation.Idle) && after.disk == c.disk
  {
  }

  lemma Resumes(world: World, c: Cell, task: Task, request: Request, bytes: Bytes)
    requires c.memory == Up(task, request, None, Operation.Idle) && c.disk == WorkOnly(bytes) && SingleRequest(request)
    requires task.state == TaskState.Paused && task.downloaded == |bytes|
    requires !(0 < task.total < |bytes|) && (bytes != [] ==> request.validator.Some?)
    ensures Next(world, c, Event.Resume(true)).Some?
    ensures var after := Next(world, c, Event.Resume(true)).value;
            && after.memory == Up(RequeuedByUser(task, |bytes|),
                                  request.(offset := |bytes|, expectedSize := task.total), None, Operation.Idle)
            && after.disk == if bytes == [] then Disk(None, None, false) else WorkOnly(bytes)
  {
  }

  function StopAndResume(): seq<Event> {
    [SignalRun, BreakOff(Interrupted), ExitRun(0, 0)] + [FinishPause(true), Event.Resume(true)]
  }

  /** The transfer stops, the pause is completed, and the task is resumed from what its file holds. */
  lemma StopsAndResumes(world: World, c: Cell, request: Request, bytes: Bytes, reply: Reply, announced: bool)
    returns (after: Cell)
    requires Stopping(c, request, WorkOnly(bytes), Body(reply, |bytes|, announced)) && SingleRequest(request)
    requires !(0 < c.memory.task.total < |bytes|) && (bytes != [] ==> request.validator.Some?)
    ensures Leads(world, c, StopAndResume(), after)
    ensures after.memory.Up? && after.memory.task.state == Queued && after.memory.operation == Operation.Idle
    ensures after.memory.request == request.(offset := |bytes|, expectedSize := c.memory.task.total)
    ensures after.disk == if bytes == [] then Disk(None, None, false) else WorkOnly(bytes)
  {
    hide Next, LeadsWith;
    var task := c.memory.task;
    var stopped := StopsTransfer(world, c, request, WorkOnly(bytes), reply, |bytes|, announced);
    CompletesPause(world, stopped, task, request, bytes);
    var paused := Next(world, stopped, FinishPause(true)).value;
    Resumes(world, paused, task.(downloaded := |bytes|), request, bytes);
    after := Next(world, paused, Event.Resume(true)).value;
    EmptyRun(world, None, after);
    StepThen(world, None, paused, Event.Resume(true), after, [], after);
    assert [FinishPause(true)] + [Event.Resume(true)] == [FinishPause(true), Event.Resume(true)];
    assert [Event.Resume(true)] + [] == [Event.Resume(true)];
    StepThen(world, None, stopped, FinishPause(true), paused, [Event.Resume(true)], after);
    RunThen(world, None, c, [SignalRun, BreakOff(Interrupted), ExitRun(0, 0)], stopped,
            [FinishPause(true), Event.Resume(true)], after);
  }

  // ---------------------------------------------------------------------
  // A size is forgotten

  /** A body without a length whose connection ends at `cut`. */
  function LengthlessRun(world: World, version: Version, offset: nat, cut: nat): seq<Event>
    requires offset <= cut
  {
    [StartRun, BeginTransfer(true)]
    + ([Respond(LengthlessResponse(world, version, offset, false))]
       + ([Announce] + [Receive(cut - offset), EndOfBody, LinkFile(true)]))
  }

  lemma LengthlessRunIsPublished(world: World, c: Cell, request: Request, version: Version, cut: nat)
    returns (after: Cell)
    requires c.memory.Up? && c.memory.task.state == Queued && c.memory.operation == Operation.Idle
    requires c.memory.request == request
    requires SingleRequest(request) && request.expectedSize <= 0
    requires (request.validator.Some? ==> version == request.validator.value)
    requires 0 <= request.offset <= cut < |world(version)|
    requires c.disk == if request.offset == 0 then Disk(None, None, false)
                       else WorkOnly(world(version)[..request.offset])
    ensures Leads(world, c, LengthlessRun(world, version, request.offset, cut), after)
    ensures after.disk.dest == Some(world(version)[..cut]) && after.published == Some(Proof(version, false))
  {
    hide Next, LeadsWith, Running, LengthlessResponse;
    var offset: nat := request.offset;
    var bytes := world(version)[..offset];
    var begun := StartsAndOpens(world, c, bytes);
    var answered := AnswersWithoutLength(world, begun, request, version, WorkOnly(bytes), false);
    var announced := AnnouncesUnknownSize(world, answered, request, WorkOnly(bytes),
                                          LengthlessReply(world, version, false), offset);
    after := EndsAndPublishes(world, announced, request, version, offset, cut);
    var tail := [Receive(cut - offset), EndOfBody, LinkFile(true)];
    var response := Respond(LengthlessResponse(world, version, offset, false));
    RunThen(world, None, answered, [Announce], announced, tail, after);
    RunThen(world, None, begun, [response], answered, [Announce] + tail, after);
    RunThen(world, None, c, [StartRun, BeginTransfer(true)], begun, [response] + ([Announce] + tail), after);
  }

  lemma LengthlessRunGoesOn(world: World, version: Version, offset: nat, cut: nat)
    requires offset <= cut
    ensures var events := LengthlessRun(world, version, offset, cut);
            forall i :: 0 <= i < |events| ==> !TakesUpAgain(events[i])
  {
  }

  /**
   From every queued single-connection task whose request knows no size and that misses bytes: an honest
   server sends the rest without a length, its connection ends at `cut`, and the part is published.
   */
  lemma ForgottenSizeTears(world: World, validator: Option<Version>, c: Cell, version: Version, cut: nat)
    returns (events: seq<Event>, after: Cell)
    requires Inv(world, validator, c) && c.memory.Up? && c.memory.task.state == Queued
    requires c.memory.operation == Operation.Idle
    requires !c.memory.request.allowSegments && c.memory.request.expectedSize <= 0
    requires validator.Some? ==> version == validator.value
    requires c.memory.request.offset <= cut < |world(version)|
    ensures Leads(world, c, events, after)
    ensures forall i :: 0 <= i < |events| ==> !TakesUpAgain(events[i])
    ensures after.disk.dest == Some(world(version)[..cut]) && after.published == Some(Proof(version, false))
  {
    QueuedFiles(world, validator, c, version);
    hide LeadsWith, Inv, LengthlessRun;
    events := LengthlessRun(world, version, c.memory.request.offset, cut);
    after := LengthlessRunIsPublished(world, c, c.memory.request, version, cut);
    LengthlessRunGoesOn(world, version, c.memory.request.offset, cut);
  }

  /** The steps that take a task up again from what is stored of its size. */
  predicate TakesUpAgain(event: Event) {
    event.Resume? || event.RetryNow? || event.Restore?
  }

  lemma QueuedFiles(world: World, validator: Option<Version>, c: Cell, version: Version)
    requires Inv(world, validator, c) && c.memory.Up? && c.memory.task.state == Queued
    requires !c.memory.request.allowSegments && (validator.Some? ==> version == validator.value)
    requires c.memory.request.offset <= |world(version)|
    ensures SingleRequest(c.memory.request) && c.memory.request.validator == validator && 0 <= c.memory.request.offset
    ensures c.disk == if c.memory.request.offset == 0 then Disk(None, None, false)
                      else WorkOnly(world(version)[..c.memory.request.offset])
  {
    if c.disk.work.Some? {
      var work := c.disk.work.value;
      assert work <= world(version) && work == world(version)[..|work|];
    }
  }

  /**
   The size is known at creation and right, and the server is honest. It sends the first body without a
   length, so the known size is forgotten; the task is paused and resumed; the next body comes without a
   length over a connection that is cut, which looks like its end. Any part of any version is published
   as the whole, for every task that does not use segments.
   */
  lemma ForgottenSizeTearsTheFile(world: World, expectedSize: int, scheduledAt: Option<Time>, acceptRanges: bool,
                                  validator: Option<Version>, version: Version, cut: nat)
    returns (events: seq<Event>, c: Cell)
    requires SizeGivenRight(world, expectedSize, acceptRanges, validator)
    requires !UsesSegments(expectedSize, acceptRanges, validator)
    requires (validator.Some? ==> version == validator.value) && cut < |world(version)|
    ensures Reached(world, expectedSize, scheduledAt, acceptRanges, validator, events, c)
    ensures c.disk.dest == Some(world(version)[..cut]) && Torn(world, c)
  {
    var created := Created(expectedSize, scheduledAt, acceptRanges, validator);
    var request := created.memory.request;
    var none: Bytes := [];
    CreationEstablishes(world, expectedSize, scheduledAt, acceptRanges, validator);
    assert SingleRequest(request);
    hide Next, LeadsWith, Inv, Running, Created, Stopping;
    var reply := LengthlessReply(world, version, false);
    var begun := StartsAndOpens(world, created, none);
    var answered := AnswersWithoutLength(world, begun, request, version, WorkOnly(none), false);
    var announced := AnnouncesUnknownSize(world, answered, request, WorkOnly(none), reply, 0);
    var stopping := Pauses(world, announced, request, WorkOnly(none), Body(reply, 0, true));
    var queued := StopsAndResumes(world, stopping, request, none, reply, true);
    var response := Respond(LengthlessResponse(world, version, 0, false));
    RunThen(world, None, announced, [Event.Pause], stopping, StopAndResume(), queued);
    RunThen(world, None, answered, [Announce], announced, [Event.Pause] + StopAndResume(), queued);
    RunThen(world, None, begun, [response], answered, [Announce] + ([Event.Pause] + StopAndResume()), queued);
    var prefix := [StartRun, BeginTransfer(true)] + ([response] + ([Announce] + ([Event.Pause] + StopAndResume())));
    RunThen(world, None, created, [StartRun, BeginTransfer(true)], begun,
            [response] + ([Announce] + ([Event.Pause] + StopAndResume())), queued);
    RunsKeep(world, validator, created, prefix, queued);
    var rest, after := ForgottenSizeTears(world, validator, queued, version, cut);
    RunThen(world, None, created, prefix, queued, rest, after);
    events, c := prefix + rest, after;
    PartIsTorn(world, c, version, cut);
  }

  lemma PartIsTorn(world: World, c: Cell, version: Version, cut: nat)
    requires cut < |world(version)| && c.disk.dest == Some(world(version)[..cut])
    requires c.published.Some? && c.published.value.version == version
    ensures Torn(world, c)
  {
    assert |world(version)[..cut]| == cut;
  }

  // ---------------------------------------------------------------------
  // A size is too small from the start

  lemma ReportIsDropped(world: World, c: Cell, request: Request, disk: Disk, reply: Reply, downloaded: nat)
    requires Stopping(c, request, disk, Body(reply, downloaded, false))
    ensures Next(world, c, Announce).Some?
    ensures Stopping(Next(world, c, Announce).value, request, disk, Body(reply, downloaded, true))
    ensures Next(world, c, Announce).value.memory.task == c.memory.task
  {
  }

  lemma ReceivesWhileStopping(world: World, c: Cell, request: Request, version: Version, framed: bool, cut: nat)
    requires cut <= |world(version)|
    requires Stopping(c, request, WorkOnly([]), Body(LengthlessReply(world, version, framed), 0, true))
    ensures Next(world, c, Receive(cut)).Some?
    ensures Stopping(Next(world, c, Receive(cut)).value, request, WorkOnly(world(version)[..cut]),
                     Body(LengthlessReply(world, version, framed), cut, true))
    ensures Next(world, c, Receive(cut)).value.memory.task == c.memory.task
  {
    assert [] + world(version)[0..cut] == world(version)[..cut];
  }

  /** The events of the first half: the task is paused before its first report and taken up again. */
  function TooSmallPauses(world: World, version: Version, size: nat): seq<Event> {
    [StartRun, BeginTransfer(true)]
    + ([Respond(LengthlessResponse(world, version, 0, true))]
       + ([Event.Pause] + ([Announce] + ([Receive(size)] + StopAndResume()))))
  }

  lemma TooSmallIsPaused(world: World, created: Cell, request: Request, version: Version, size: nat)
    returns (queued: Cell)
    requires 0 < size < |world(version)|
    requires created.memory.Up? && created.memory.task.state == Queued && created.memory.operation == Operation.Idle
    requires created.memory.request == request && SingleRequest(request) && created.disk == Disk(None, None, false)
    requires request.offset == 0 && request.expectedSize == created.memory.task.total == size
    requires request.validator == Some(version)
    ensures Leads(world, created, TooSmallPauses(world, version, size), queued)
    ensures queued.memory.Up? && queued.memory.task.state == Queued && queued.memory.operation == Operation.Idle
    ensures queued.memory.request == request.(offset := size) && queued.disk == WorkOnly(world(version)[..size])
  {
    hide Next, LeadsWith, Running, Stopping;
    var none: Bytes := [];
    var part := world(version)[..size];
    var reply := LengthlessReply(world, version, true);
    var begun := StartsAndOpens(world, created, none);
    var answered := AnswersWithoutLength(world, begun, request, version, WorkOnly(none), true);
    var stopping := Pauses(world, answered, request, WorkOnly(none), Body(reply, 0, false));
    ReportIsDropped(world, stopping, request, WorkOnly(none), reply, 0);
    var dropped := Next(world, stopping, Announce).value;
    ReceivesWhileStopping(world, dropped, request, version, true, size);
    var received := Next(world, dropped, Receive(size)).value;
    StoppingTask(received, request, WorkOnly(part), Body(reply, size, true));
    queued := StopsAndResumes(world, received, request, part, reply, true);
    StepThen(world, None, dropped, Receive(size), received, StopAndResume(), queued);
    StepThen(world, None, stopping, Announce, dropped, [Receive(size)] + StopAndResume(), queued);
    var tail := [Announce] + ([Receive(size)] + StopAndResume());
    RunThen(world, None, answered, [Event.Pause], stopping, tail, queued);
    RunThen(world, None, begun, [Respond(LengthlessResponse(world, version, 0, true))], answered, [Event.Pause] + tail,
            queued);
    RunThen(world, None, created, [StartRun, BeginTransfer(true)], begun,
            [Respond(LengthlessResponse(world, version, 0, true))] + ([Event.Pause] + tail), queued);
  }

  lemma StoppingTask(c: Cell, request: Request, disk: Disk, phase: Phase)
    requires Stopping(c, request, disk, phase)
    ensures c.memory.Up? && c.memory.task.state == TaskState.Paused
  {
  }

  /** What looks complete is published as soon as the task is taken up. */
  lemma CompleteLookingPartIsPublished(world: World, c: Cell, version: Version, part: Bytes) returns (after: Cell)
    requires c.memory.Up? && c.memory.task.state == Queued && c.memory.operation == Operation.Idle && part != []
    requires SingleRequest(c.memory.request) && c.memory.request.validator == Some(version) && c.disk == WorkOnly(part)
    requires c.memory.request.offset == c.memory.request.expectedSize == |part|
    ensures Leads(world, c, [StartRun, BeginTransfer(true)] + [LinkFile(true)], after)
    ensures after.disk.dest == Some(part) && after.published == Some(Proof(version, |world(version)| <= |part|))
  {
    hide Next, LeadsWith, Running;
    var begun := StartsAndOpens(world, c, part);
    after := Publishes(world, begun, c.memory.request, part, |part|, Proof(version, |world(version)| <= |part|));
    RunThen(world, None, c, [StartRun, BeginTransfer(true)], begun, [LinkFile(true)], after);
  }

  /**
   The size given at creation is too small. Every response marks its end, so every length is vouched for.
   The task is paused between the response header and its first report, which is then dropped; when that
   many bytes are there, the partial file looks complete, and resuming publishes it unasked. So it is for
   every version, every smaller size, and every task that does not use segments.
   */
  lemma TooSmallSizeTearsTheFile(world: World, expectedSize: int, scheduledAt: Option<Time>, acceptRanges: bool,
                                 version: Version)
    returns (events: seq<Event>, c: Cell)
    requires 0 < expectedSize < |world(version)| && !UsesSegments(expectedSize, acceptRanges, Some(version))
    ensures Reached(world, expectedSize, scheduledAt, acceptRanges, Some(version), events, c)
            && AllVouched(world, events)
    ensures c.disk.dest == Some(world(version)[..expectedSize]) && Torn(world, c)
  {
    var created := Created(expectedSize, scheduledAt, acceptRanges, Some(version));
    var request := created.memory.request;
    assert SingleRequest(request);
    var queued := TooSmallIsPaused(world, created, request, version, expectedSize);
    hide Next, LeadsWith, Created;
    c := CompleteLookingPartIsPublished(world, queued, version, world(version)[..expectedSize]);
    events := TooSmallPauses(world, version, expectedSize) + ([StartRun, BeginTransfer(true)] + [LinkFile(true)]);
    RunThen(world, None, created, TooSmallPauses(world, version, expectedSize), queued,
            [StartRun, BeginTransfer(true)] + [LinkFile(true)], c);
    PartIsTorn(world, c, version, expectedSize);
  }
}
