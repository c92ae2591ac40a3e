/**
 The engine as a whole: one scheduler, and for every task its own transfer protocol with its files, its stored
 record, its remote side and its headers. Sections of the manager, steps of all transfers, crashes and restarts
 interleave in any order, and everything the transfer protocol promises holds of every task.
 */
module Engine {
  import opened Basics
  import opened Checkpoints
  import opened Recovery
  import opened Tasks
  import P = TransferProtocol
  import T = TransferTheorems
  import W = OwnRanges
  import opened SchedulerSpec
  import opened SchedulerSafety
  import opened SchedulerTheorems
  import opened Agreement

  /** A task from its creation on: what it was created with, every step of its protocol, and where that led. */
  datatype Life = Life(world: World, own: Option<P.ByteRange>, input: NewDownload, history: seq<P.Event>, cell: P.Cell)

  /** `scheduler` is None while the engine does not run. */
  datatype Engine = Engine(scheduler: Option<State>, lives: map<TaskID, Life>)

  datatype Move =
    | Act(action: Action, unseen: Unseen, now: Time, world: World, own: Option<P.ByteRange>)
    | Transfer(id: TaskID, event: P.Event, now: Time)
    | Signal(id: TaskID)
    | Die(exiting: Option<TaskID>)
    | Restart(ids: seq<TaskID>, maxConcurrent: nat, maxRetries: nat, now: Time)

  function Born(input: NewDownload): P.Cell {
    P.Created(input.expectedSize, input.scheduledAt, input.acceptRanges, input.validator)
  }

  function Goes(life: Life, events: seq<P.Event>): Life {
    life.(history := life.history + events, cell := Performed(life.world, life.cell, events))
  }

  // ---------------------------------------------------------------------
  // The moves

  /** The action finds the files of every task as they are. */
  ghost predicate Sees(e: Engine, action: Action) {
    && (forall id :: id in e.lives ==> e.lives[id].cell.memory.Up? && Observes(action, id, e.lives[id].cell))
    && (action.FinishClose? ==>
          forall id :: id in e.lives ==> id in action.disks && action.disks[id] == e.lives[id].cell.disk)
  }

  ghost function KeptLives(e: Engine, s: State, next: State, action: Action, effect: Effect, unseen: Unseen,
                           now: Time): map<TaskID, Life> {
    map id | id in e.lives && id in s.tasks && id in next.tasks ::
      Goes(e.lives[id], StepsOf(s, action, effect, unseen, now, id))
  }

  function NewLives(next: State, action: Action, effect: Effect, now: Time, world: World,
                    own: Option<P.ByteRange>): map<TaskID, Life> {
    if !action.Create? || action.id !in next.tasks then map[]
    else map[action.id := Goes(Life(world, own, action.input, [], Born(action.input)),
                               FillSteps(effect, now, action.id))]
  }

  /**
   A locked section of the manager: a step of the scheduler, and of each task the steps of its protocol that it is.
   */
  ghost function ActMove(e: Engine, s: State, action: Action, unseen: Unseen, now: Time, world: World,
                         own: Option<P.ByteRange>): Option<Engine> {
    var effect, next := Update(s, action, now), Next(s, action, now);
    if effect.None? || next.None? || action.Progress? || !Sees(e, action) then None
    else
      Some(Engine(if action.FinishClose? then None else next,
                  KeptLives(e, s, next.value, action, effect.value, unseen, now)
                  + NewLives(next.value, action, effect.value, now, world, own)))
  }

  /** A step of one transfer; what it reports is the scheduler's progress action. */
  ghost function TransferMove(e: Engine, s: State, id: TaskID, event: P.Event, now: Time): Option<Engine> {
    if id !in e.lives || id !in s.runs || !IsTransferStep(event) then None
    else
      var life := e.lives[id];
      if life.cell.memory.Down? || life.cell.memory.run.None? then None
      else if !P.HonestTo(life.world, life.own, life.cell, event) || P.Next(life.world, life.cell, event).None?
      then None
      else
        var report := ReportOf(life.cell, event);
        var next := match report
          case None => Some(s)
          case Some((downloaded, total, checkpoint)) =>
            Next(s, Progress(id, s.runs[id], downloaded, total, checkpoint), now);
        if next.None? then None else Some(Engine(next, e.lives[id := Goes(life, [event])]))
  }

  ghost function SignalMove(e: Engine, s: State, id: TaskID): Option<Engine> {
    if id !in e.lives || P.Next(e.lives[id].world, e.lives[id].cell, P.SignalRun).None? then None
    else Some(Engine(Some(s), e.lives[id := Goes(e.lives[id], [P.SignalRun])]))
  }

  function LastEvent(id: TaskID, exiting: Option<TaskID>): P.Event {
    if exiting == Some(id) then P.CrashInExit else P.Crash
  }

  /** The engine dies, perhaps in the exit section of one run. */
  ghost function DieMove(e: Engine, exiting: Option<TaskID>): Option<Engine> {
    if exists id :: id in e.lives && P.Next(e.lives[id].world, e.lives[id].cell, LastEvent(id, exiting)).None? then None
    else Some(Engine(None, map id | id in e.lives :: Goes(e.lives[id], [LastEvent(id, exiting)])))
  }

  /** What is stored of a task, and its files. */
  ghost function RecordOf(e: Engine, id: TaskID): Record
    requires id in e.lives && e.lives[id].cell.store.Some?
  {
    Record(id, e.lives[id].cell.store.value, e.lives[id].cell.disk)
  }

  ghost function StoredRecords(e: Engine, ids: seq<TaskID>): seq<Record>
    requires forall i :: 0 <= i < |ids| ==> ids[i] in e.lives && e.lives[ids[i]].cell.store.Some?
  {
    seq(|ids|, i requires 0 <= i < |ids| => RecordOf(e, ids[i]))
  }

  /** The engine starts on its store, in which the records stand in the order of `ids`. */
  ghost function RestartMove(e: Engine, ids: seq<TaskID>, maxConcurrent: nat, maxRetries: nat,
                             now: Time): Option<Engine> {
    if !(forall id :: id in ids <==> id in e.lives) then None
    else if exists id :: id in e.lives && e.lives[id].cell.store.None? then None
    else
      var restored := Restored(maxConcurrent, maxRetries, StoredRecords(e, ids), now);
      if restored.None? then None
      else Some(Engine(restored, map id | id in e.lives :: Goes(e.lives[id], [P.Event.Restore(now, true)])))
  }

  /** What a move leads to; None when it is not possible. */
  ghost function After(e: Engine, move: Move): Option<Engine> {
    if move.Restart? != e.scheduler.None? then None
    else
      match move
      case Act(action, unseen, now, world, own) => ActMove(e, e.scheduler.value, action, unseen, now, world, own)
      case Transfer(id, event, now) => TransferMove(e, e.scheduler.value, id, event, now)
      case Signal(id) => SignalMove(e, e.scheduler.value, id)
      case Die(exiting) => DieMove(e, exiting)
      case Restart(ids, maxConcurrent, maxRetries, now) => RestartMove(e, ids, maxConcurrent, maxRetries, now)
  }

  ghost predicate Runs(from: Engine, moves: seq<Move>, to: Engine)
    decreases |moves|
  {
    if moves == [] then from == to
    else After(from, moves[0]).Some? && Runs(After(from, moves[0]).value, moves[1..], to)
  }

  // ---------------------------------------------------------------------
  // The invariant

  /** The life is an honest run of the protocol from the creation of the task. */
  ghost predicate LifeOK(life: Life) {
    P.LeadsWith(life.world, life.own, Born(life.input), life.history, life.cell) && life.cell.store.Some?
  }

  /** The scheduler and the protocols know the same about every task. */
  ghost predicate EngineInv(e: Engine) {
    && (forall id :: id in e.lives ==> LifeOK(e.lives[id]))
    && match e.scheduler
       case None => forall id :: id in e.lives ==> e.lives[id].cell.memory.Down?
       case Some(s) =>
         && Inv(s) && s.tasks.Keys == e.lives.Keys
         && forall id :: id in e.lives ==> Projects(s, id, e.lives[id].cell)
  }

  /** A record leaves the store only when its task is removed. */
  lemma StoreStays(world: World, c: P.Cell, event: P.Event)
    requires c.store.Some? && P.Next(world, c, event).Some? && !(event.Delete? && event.removed)
    ensures P.Next(world, c, event).value.store.Some?
  {
    hide P.AcceptReply, P.AcceptSegment, AcceptsReport, PartialProgress, Reconcile;
  }

  lemma {:induction false} RunsKeepTheStore(world: World, own: Option<P.ByteRange>, c: P.Cell, events: seq<P.Event>,
                                            after: P.Cell)
    requires c.store.Some? && P.LeadsWith(world, own, c, events, after)
    requires forall i :: 0 <= i < |events| ==> !(events[i].Delete? && events[i].removed)
    ensures after.store.Some?
    decreases |events|
  {
    if events != [] {
      hide P.Next, P.HonestTo;
      StoreStays(world, c, events[0]);
      assert forall i :: 0 <= i < |events[1..]| ==> events[1..][i] == events[i + 1];
      RunsKeepTheStore(world, own, P.Next(world, c, events[0]).value, events[1..], after);
    }
  }

  /** An honest run from where a life is makes it longer. */
  lemma LifeGoesOn(life: Life, events: seq<P.Event>)
    requires LifeOK(life)
    requires P.LeadsWith(life.world, life.own, life.cell, events, Performed(life.world, life.cell, events))
    requires forall i :: 0 <= i < |events| ==> !(events[i].Delete? && events[i].removed)
    ensures LifeOK(Goes(life, events))
  {
    hide P.LeadsWith, Performed, P.Created;
    P.RunThen(life.world, life.own, Born(life.input), life.history, life.cell, events,
              Performed(life.world, life.cell, events));
    RunsKeepTheStore(life.world, life.own, life.cell, events, Performed(life.world, life.cell, events));
  }

  lemma OneStep(world: World, own: Option<P.ByteRange>, c: P.Cell, event: P.Event)
    requires P.HonestTo(world, own, c, event) && P.Next(world, c, event).Some?
    ensures Performed(world, c, [event]) == P.Next(world, c, event).value
    ensures P.LeadsWith(world, own, c, [event], Performed(world, c, [event]))
  {
    hide P.Next, P.HonestTo;
    var next := P.Next(world, c, event).value;
    assert [event][1..] == [];
    assert P.LeadsWith(world, own, next, [], next);
    assert Performed(world, next, []) == next;
  }

  // ---------------------------------------------------------------------
  // Every move keeps the invariant

  lemma ProjectionOf(e: Engine, s: State, id: TaskID)
    requires EngineInv(e) && e.scheduler == Some(s) && id in e.lives
    ensures Inv(s) && Projects(s, id, e.lives[id].cell) && LifeOK(e.lives[id]) && e.lives[id].cell.memory.Up?
    ensures id in s.tasks && id in s.requests
  {
  }

  /** What an action does to the set of tasks. */
  lemma KnownTasks(s: State, action: Action, now: Time)
    requires Inv(s) && Next(s, action, now).Some?
    ensures var next := Next(s, action, now).value;
            && (action.Create? ==>
                  action.id !in s.tasks && next.tasks.Keys == s.tasks.Keys + if action.saved then {action.id} else {})
            && (action.Delete? && action.removed ==> next.tasks.Keys == s.tasks.Keys - {action.id})
            && (!action.Create? && !(action.Delete? && action.removed) ==> next.tasks.Keys == s.tasks.Keys)
  {
    hide Inv, Fill;
    UpdatedTasks(s, action, now);
    UpdateKeepsInv(s, action, now);
    FillKnowsTasks(Update(s, action, now).value.state, now);
  }

  lemma UpdatedTasks(s: State, action: Action, now: Time)
    requires Update(s, action, now).Some?
    ensures var next := Update(s, action, now).value.state;
            && (action.Create? ==>
                  action.id !in s.tasks && next.tasks.Keys == s.tasks.Keys + if action.saved then {action.id} else {})
            && (action.Delete? && action.removed ==> next.tasks.Keys == s.tasks.Keys - {action.id})
            && (!action.Create? && !(action.Delete? && action.removed) ==> next.tasks.Keys == s.tasks.Keys)
  {
    hide EarliestPlan, Without, PartialProgress, PrepareResume, PrepareManualRetry, NewRequest,
      ProgressUpdate, ExitUpdate, RetryDueUpdate, CloseUpdate, FinishCloseUpdate, RetryStillWanted;
    match action {
      case Progress(id, token, downloaded, total, checkpoint) =>
        ReportKeepsTasks(s, id, token, downloaded, total, checkpoint);
      case ExitRun(id, token, ending, baseDelay) => ExitKeepsTasks(s, id, token, ending, baseDelay, now);
      case RetryDue(id, at) => LaterKeepsTasks(s, id, at, now, map[]);
      case Close => LaterKeepsTasks(s, 0, 0, now, map[]);
      case FinishClose(disks) => LaterKeepsTasks(s, 0, 0, now, disks);
      case _ =>
    }
  }

  lemma ReportKeepsTasks(s: State, id: TaskID, token: nat, downloaded: int, total: int,
                         checkpoint: Option<TransferCheckpoint>)
    ensures ProgressUpdate(s, id, token, downloaded, total, checkpoint).tasks.Keys == s.tasks.Keys
  {
    hide AcceptsReport;
  }

  lemma ExitKeepsTasks(s: State, id: TaskID, token: nat, ending: Ending, baseDelay: Delay, now: Time)
    ensures ExitUpdate(s, id, token, ending, baseDelay, now).tasks.Keys == s.tasks.Keys
  {
    hide EndedTask, RetryDelay;
  }

  lemma LaterKeepsTasks(s: State, id: TaskID, at: Time, now: Time, disks: map<TaskID, Disk>)
    ensures RetryDueUpdate(s, id, at).tasks.Keys == s.tasks.Keys
    ensures CloseUpdate(s, now).tasks.Keys == s.tasks.Keys
    ensures FinishCloseUpdate(s, disks).tasks.Keys == s.tasks.Keys
  {
    hide Without, PartialProgress;
  }

  lemma FillKnowsTasks(s: State, now: Time)
    requires Inv(s)
    ensures Fill(s, now).tasks.Keys == s.tasks.Keys && (s.closed ==> Fill(s, now) == s)
  {
    hide Fill, Filled;
    if s.closed {
      FillNeedsOpen(s, now);
    } else {
      FillEffect(s, now);
      FilledTasks(s, Fill(s, now), FillStarts(s, now), FillLeaves(s, now));
    }
  }

  lemma FilledTasks(s: State, after: State, starts: seq<TaskID>, leaves: seq<TaskID>)
    requires Filled(s, after, starts, leaves)
    ensures after.tasks.Keys == s.tasks.Keys
  {
  }

  /** A task that goes on after an action. */
  lemma ActKeepsLife(e: Engine, s: State, action: Action, unseen: Unseen, now: Time, id: TaskID)
    requires EngineInv(e) && e.scheduler == Some(s) && id in e.lives && Next(s, action, now).Some? && Sees(e, action)
    requires GoesOn(action, id)
    ensures id in s.tasks
    ensures var life := Goes(e.lives[id], StepsOf(s, action, Update(s, action, now).value, unseen, now, id));
            LifeOK(life) && Projects(Next(s, action, now).value, id, life.cell)
  {
    assert Update(s, action, now).Some?;
    hide EngineInv, LifeOK, Inv, Projects, Next, Update, StepOf, Performed, FillSteps;
    ProjectionOf(e, s, id);
    var life := e.lives[id];
    ActionsAreSteps(life.world, life.own, s, action, unseen, now, id, life.cell);
    var steps := StepsOf(s, action, Update(s, action, now).value, unseen, now, id);
    StepsRemoveNothing(s, action, Update(s, action, now).value, unseen, now, id);
    LifeGoesOn(life, steps);
  }

  lemma StepsRemoveNothing(s: State, action: Action, effect: Effect, unseen: Unseen, now: Time, id: TaskID)
    requires id in s.tasks && (GoesOn(action, id) || action.FinishClose?)
    ensures var steps := StepsOf(s, action, effect, unseen, now, id);
            forall i :: 0 <= i < |steps| ==> !(steps[i].Delete? && steps[i].removed)
  {
    hide FillStarts;
  }

  /** A task begins. */
  lemma CreatedLife(s: State, action: Action, now: Time, world: World, own: Option<P.ByteRange>)
    requires Inv(s) && action.Create? && action.saved && Next(s, action, now).Some?
    ensures var life := Goes(Life(world, own, action.input, [], Born(action.input)),
                             FillSteps(Update(s, action, now).value, now, action.id));
            LifeOK(life) && Projects(Next(s, action, now).value, action.id, life.cell)
  {
    hide Inv, Projects, Fill, P.Next, P.Created, P.LeadsWith, Performed, FillStarts, CreateUpdate;
    var born := Born(action.input);
    var created := CreateUpdate(s, action.id, action.input);
    var life := Life(world, own, action.input, [], born);
    CreationAgrees(s, action.id, action.input, now);
    UpdateKeepsInv(s, action, now);
    CreationOpens(s, action, now);
    BornIsStored(action.input);
    P.EmptyRun(world, own, born);
    LeadsPerforms(world, own, born, [], born);
    FillAgrees(world, created, action.id, now, born);
    if action.id in FillStarts(created, now) {
      OneStep(world, own, born, P.StartRun);
      LifeGoesOn(life, [P.StartRun]);
    } else {
      LifeGoesOn(life, []);
    }
  }

  lemma CreationOpens(s: State, action: Action, now: Time)
    requires action.Create? && action.saved && Next(s, action, now).Some?
    ensures MayCreate(s, action.id, action.input, now) && !CreateUpdate(s, action.id, action.input).closed
    ensures Update(s, action, now) == Some(Effect(CreateUpdate(s, action.id, action.input), true))
    ensures Next(s, action, now) == Some(Fill(CreateUpdate(s, action.id, action.input), now))
  {
    hide Fill, Without;
  }

  lemma BornIsStored(input: NewDownload)
    ensures Born(input).store.Some?
  {
  }

  /** The last section of a shutdown ends the memory of every protocol. */
  lemma ClosedLife(e: Engine, s: State, action: Action, unseen: Unseen, now: Time, id: TaskID)
    requires EngineInv(e) && e.scheduler == Some(s) && id in e.lives && action.FinishClose?
    requires Next(s, action, now).Some? && Sees(e, action)
    ensures id in s.tasks
    ensures var life := Goes(e.lives[id], StepsOf(s, action, Update(s, action, now).value, unseen, now, id));
            LifeOK(life) && life.cell.memory.Down?
  {
    hide EngineInv, LifeOK, Inv, Projects, Performed, P.Next, FinishCloseUpdate, Reconciled, PartialProgress;
    ProjectionOf(e, s, id);
    var life := e.lives[id];
    ShutdownAgrees(life.world, s, id, action.disks, unseen.saved, now, life.cell);
    OneStep(life.world, life.own, life.cell, P.Event.FinishClose(unseen.saved));
    assert StepsOf(s, action, Update(s, action, now).value, unseen, now, id) == [P.Event.FinishClose(unseen.saved)];
    LifeGoesOn(life, [P.Event.FinishClose(unseen.saved)]);
  }

  lemma ActKeeps(e: Engine, s: State, action: Action, unseen: Unseen, now: Time, world: World, own: Option<P.ByteRange>)
    requires EngineInv(e) && e.scheduler == Some(s) && ActMove(e, s, action, unseen, now, world, own).Some?
    ensures EngineInv(ActMove(e, s, action, unseen, now, world, own).value)
  {
    hide LifeOK, Inv, Projects, Next, Update, StepsOf, FillSteps, Goes, Born;
    var after := ActMove(e, s, action, unseen, now, world, own).value;
    KnownTasks(s, action, now);
    StepKeeps(s, action, now);
    if action.Create? && action.saved {
      CreatedLife(s, action, now, world, own);
    }
    forall id | id in after.lives
      ensures LifeOK(after.lives[id])
      ensures if action.FinishClose? then after.lives[id].cell.memory.Down?
              else Projects(Next(s, action, now).value, id, after.lives[id].cell)
    {
      if id in e.lives {
        if action.FinishClose? {
          ClosedLife(e, s, action, unseen, now, id);
        } else {
          ActKeepsLife(e, s, action, unseen, now, id);
        }
      }
    }
    ActLives(e, s, action, unseen, now, world, own);
  }

  lemma ActLives(e: Engine, s: State, action: Action, unseen: Unseen, now: Time, world: World, own: Option<P.ByteRange>)
    requires EngineInv(e) && e.scheduler == Some(s) && ActMove(e, s, action, unseen, now, world, own).Some?
    ensures ActMove(e, s, action, unseen, now, world, own).value.lives.Keys == Next(s, action, now).value.tasks.Keys
  {
    hide LifeOK, Inv, Projects, Next, Update, StepsOf, FillSteps, Goes, Born;
    KnownTasks(s, action, now);
  }

  // ---------------------------------------------------------------------
  // Transfers and signals

  /** Only the life of one task changes, and the scheduler at most in what it knows of that task. */
  lemma OneLifeKeeps(e: Engine, s: State, next: State, id: TaskID, life: Life)
    requires EngineInv(e) && e.scheduler == Some(s) && id in e.lives && LifeOK(life)
    requires Inv(next) && next.tasks.Keys == s.tasks.Keys && Projects(next, id, life.cell)
    requires next == s || forall other :: other in e.lives && other != id ==> Projects(next, other, e.lives[other].cell)
    ensures EngineInv(Engine(Some(next), e.lives[id := life]))
  {
    hide LifeOK, Inv, Projects;
  }

  lemma TransferKeeps(e: Engine, s: State, id: TaskID, event: P.Event, now: Time)
    requires EngineInv(e) && e.scheduler == Some(s) && TransferMove(e, s, id, event, now).Some?
    ensures EngineInv(TransferMove(e, s, id, event, now).value)
  {
    hide EngineInv, LifeOK, Inv, Projects, Next, P.Next, P.HonestTo, ReportOf, Performed;
    ProjectionOf(e, s, id);
    var life := e.lives[id];
    RunIsLive(s, id);
    TransferStepsAreReports(life.world, s, id, s.runs[id], now, life.cell, event);
    OneStep(life.world, life.own, life.cell, event);
    NotDelete(event);
    LifeGoesOn(life, [event]);
    match ReportOf(life.cell, event) {
      case None => OneLifeKeeps(e, s, s, id, Goes(life, [event]));
      case Some((downloaded, total, checkpoint)) =>
        ReportKeeps(e, s, id, Progress(id, s.runs[id], downloaded, total, checkpoint), now, Goes(life, [event]));
    }
  }

  lemma ReportKeeps(e: Engine, s: State, id: TaskID, report: Action, now: Time, life: Life)
    requires EngineInv(e) && e.scheduler == Some(s) && id in e.lives && LifeOK(life) && Inv(s)
    requires report.Progress? && report.id == id && Next(s, report, now).Some?
    requires Projects(Next(s, report, now).value, id, life.cell)
    ensures EngineInv(Engine(Next(s, report, now), e.lives[id := life]))
  {
    hide EngineInv, LifeOK, Inv, Projects, Next;
    StepKeeps(s, report, now);
    KnownTasks(s, report, now);
    forall other | other in e.lives && other != id
      ensures Projects(Next(s, report, now).value, other, e.lives[other].cell)
    {
      OthersKeep(e, s, report, now, other);
    }
    OneLifeKeeps(e, s, Next(s, report, now).value, id, life);
  }

  lemma NotDelete(event: P.Event)
    requires IsTransferStep(event)
    ensures !event.Delete?
  {
  }

  lemma RunIsLive(s: State, id: TaskID)
    requires Inv(s) && id in s.runs
    ensures (id, s.runs[id]) in s.live
  {
  }

  /** A report of one task is nothing to the others. */
  lemma OthersKeep(e: Engine, s: State, action: Action, now: Time, other: TaskID)
    requires EngineInv(e) && e.scheduler == Some(s) && other in e.lives
    requires action.Progress? && action.id != other && Next(s, action, now).Some?
    ensures Projects(Next(s, action, now).value, other, e.lives[other].cell)
  {
    hide EngineInv, Inv, LifeOK, Projects, Next;
    ProjectionOf(e, s, other);
    ReportLeavesOthers(s, action, now, other);
    OthersStay(s, Next(s, action, now).value, other, e.lives[other].cell);
  }

  lemma ReportLeavesOthers(s: State, action: Action, now: Time, other: TaskID)
    requires action.Progress? && action.id != other && Next(s, action, now).Some? && other in s.tasks
    requires other in s.requests
    ensures var after := Next(s, action, now).value;
            && other in after.tasks && other in after.requests
            && after.tasks[other] == s.tasks[other] && after.requests[other] == s.requests[other]
            && (other in after.runs <==> other in s.runs) && after.hold == s.hold && after.closed == s.closed
  {
    hide AcceptsReport;
  }

  lemma SignalKeeps(e: Engine, s: State, id: TaskID)
    requires EngineInv(e) && e.scheduler == Some(s) && SignalMove(e, s, id).Some?
    ensures EngineInv(SignalMove(e, s, id).value)
  {
    hide EngineInv, LifeOK, Inv, Projects, P.Next, Performed;
    ProjectionOf(e, s, id);
    var life := e.lives[id];
    SignalAgrees(life.world, s, id, life.cell);
    OneStep(life.world, life.own, life.cell, P.SignalRun);
    LifeGoesOn(life, [P.SignalRun]);
    OneLifeKeeps(e, s, s, id, Goes(life, [P.SignalRun]));
  }

  // ---------------------------------------------------------------------
  // Crashes and restarts

  lemma DiesDown(world: World, c: P.Cell, event: P.Event)
    requires c.memory.Up? && (event.Crash? || event.CrashInExit?) && P.Next(world, c, event).Some?
    ensures P.Next(world, c, event).value.memory.Down?
  {
  }

  lemma DieKeeps(e: Engine, s: State, exiting: Option<TaskID>)
    requires EngineInv(e) && e.scheduler == Some(s) && DieMove(e, exiting).Some?
    ensures EngineInv(DieMove(e, exiting).value)
  {
    hide LifeOK, Inv, Projects, P.Next, Goes;
    var after := DieMove(e, exiting).value;
    forall id | id in after.lives ensures LifeOK(after.lives[id]) && after.lives[id].cell.memory.Down? {
      DyingLife(e, s, exiting, id);
    }
  }

  lemma DyingLife(e: Engine, s: State, exiting: Option<TaskID>, id: TaskID)
    requires EngineInv(e) && e.scheduler == Some(s) && id in e.lives
    requires P.Next(e.lives[id].world, e.lives[id].cell, LastEvent(id, exiting)).Some?
    ensures var life := Goes(e.lives[id], [LastEvent(id, exiting)]); LifeOK(life) && life.cell.memory.Down?
  {
    hide EngineInv, LifeOK, Inv, Projects, P.Next, Performed;
    ProjectionOf(e, s, id);
    var life, event := e.lives[id], LastEvent(id, exiting);
    OneStep(life.world, life.own, life.cell, event);
    DiesDown(life.world, life.cell, event);
    LifeGoesOn(life, [event]);
  }

  lemma RestoreOneLeaves(s: State, record: Record, now: Time, id: TaskID, c: P.Cell)
    requires Projects(s, id, c) && RestoreOne(s, record, now).Some?
    ensures Projects(RestoreOne(s, record, now).value, id, c)
  {
    hide Reconcile, Without;
    OthersStay(s, RestoreOne(s, record, now).value, id, c);
  }

  lemma RestoreOneKnows(s: State, record: Record, now: Time)
    requires RestoreOne(s, record, now).Some?
    ensures RestoreOne(s, record, now).value.tasks.Keys == s.tasks.Keys + {record.id}
  {
    hide Reconcile, Without;
  }

  lemma LastRecord(e: Engine, ids: seq<TaskID>)
    requires ids != [] && forall i :: 0 <= i < |ids| ==> ids[i] in e.lives && e.lives[ids[i]].cell.store.Some?
    ensures var init, last := ids[..|ids| - 1], ids[|ids| - 1];
            StoredRecords(e, ids) == StoredRecords(e, init) + [RecordOf(e, last)]
  {
  }

  lemma RestoreOneMore(start: State, records: seq<Record>, record: Record, now: Time)
    ensures RestoreAll(start, records + [record], now)
            == if RestoreAll(start, records, now).None? then None
               else RestoreOne(RestoreAll(start, records, now).value, record, now)
  {
    assert (records + [record])[..|records|] == records;
  }

  lemma DownLife(e: Engine, id: TaskID)
    requires EngineInv(e) && e.scheduler.None? && id in e.lives
    ensures LifeOK(e.lives[id]) && e.lives[id].cell.memory.Down?
  {
  }

  /** The scheduler knows exactly these tasks, each as the restart step of its protocol leaves it. */
  ghost predicate RestoredSoFar(e: Engine, s: State, ids: seq<TaskID>, now: Time) {
    && s.tasks.Keys == Members(ids)
    && forall id :: id in ids ==> id in e.lives && RestoredAs(s, id, e.lives[id], now)
  }

  ghost predicate RestoredAs(s: State, id: TaskID, life: Life, now: Time) {
    var restarted := P.Next(life.world, life.cell, P.Event.Restore(now, true));
    restarted.Some? && Projects(s, id, restarted.value)
  }

  lemma OneMoreRestored(e: Engine, before: State, ids: seq<TaskID>, last: TaskID, now: Time)
    requires EngineInv(e) && e.scheduler.None? && last in e.lives && e.lives[last].cell.store.Some?
    requires RestoredSoFar(e, before, ids, now) && OpenInv(before) && !before.closed && before.hold == Free
    requires RestoreOne(before, RecordOf(e, last), now).Some?
    ensures RestoredSoFar(e, RestoreOne(before, RecordOf(e, last), now).value, ids + [last], now)
  {
    hide EngineInv, OpenInv, Projects, P.Next, RestoreOne, LifeOK;
    var after := RestoreOne(before, RecordOf(e, last), now).value;
    DownLife(e, last);
    RestoreAgrees(e.lives[last].world, before, RecordOf(e, last), now, e.lives[last].cell);
    RestoreOneKnows(before, RecordOf(e, last), now);
    forall id | id in ids ensures RestoredAs(after, id, e.lives[id], now) {
      RestoreOneLeaves(before, RecordOf(e, last), now, id,
                       P.Next(e.lives[id].world, e.lives[id].cell, P.Event.Restore(now, true)).value);
    }
  }

  lemma {:induction false} RestoreAllAgrees(e: Engine, start: State, ids: seq<TaskID>, now: Time)
    requires EngineInv(e) && e.scheduler.None?
    requires forall i :: 0 <= i < |ids| ==> ids[i] in e.lives && e.lives[ids[i]].cell.store.Some?
    requires OpenInv(start) && !start.closed && start.hold == Free && start.runs == map[] && start.tasks == map[]
    requires RestoreAll(start, StoredRecords(e, ids), now).Some?
    ensures RestoredSoFar(e, RestoreAll(start, StoredRecords(e, ids), now).value, ids, now)
    decreases |ids|
  {
    if ids != [] {
      hide EngineInv, OpenInv, RestoreOne, RestoredSoFar, StoredRecords;
      var init, last := ids[..|ids| - 1], ids[|ids| - 1];
      LastRecord(e, ids);
      assert ids == init + [last];
      RestoreOneMore(start, StoredRecords(e, init), RecordOf(e, last), now);
      hide RestoreAll;
      RestoreAllAgrees(e, start, init, now);
      RestoreAllKeeps(start, StoredRecords(e, init), now);
      OneMoreRestored(e, RestoreAll(start, StoredRecords(e, init), now).value, init, last, now);
    }
  }

  lemma RestartKeeps(e: Engine, ids: seq<TaskID>, maxConcurrent: nat, maxRetries: nat, now: Time)
    requires EngineInv(e) && e.scheduler.None? && RestartMove(e, ids, maxConcurrent, maxRetries, now).Some?
    ensures EngineInv(RestartMove(e, ids, maxConcurrent, maxRetries, now).value)
  {
    hide LifeOK, Projects, P.Next, OpenInv, ClosedInv, Goes, RestoreAll, RefreshTimer, StoredRecords;
    var after := RestartMove(e, ids, maxConcurrent, maxRetries, now).value;
    var s := after.scheduler.value;
    RestartStarts(e, ids, maxConcurrent, maxRetries, now);
    forall id | id in e.lives ensures LifeOK(after.lives[id]) && Projects(s, id, after.lives[id].cell) {
      RestartedLife(e, s, id, now);
    }
    assert s.tasks.Keys == after.lives.Keys;
  }

  lemma RestartStarts(e: Engine, ids: seq<TaskID>, maxConcurrent: nat, maxRetries: nat, now: Time)
    requires EngineInv(e) && e.scheduler.None? && RestartMove(e, ids, maxConcurrent, maxRetries, now).Some?
    ensures var s := RestartMove(e, ids, maxConcurrent, maxRetries, now).value.scheduler.value;
            Inv(s) && RestoredSoFar(e, s, ids, now)
  {
    hide EngineInv, OpenInv, ClosedInv, RestoreAll, RefreshTimer, StoredRecords, RestoredSoFar;
    var start, records := Initial(maxConcurrent, maxRetries), StoredRecords(e, ids);
    var restored := RestoreAll(start, records, now).value;
    InitialIsOpen(maxConcurrent, maxRetries);
    RestoreAllAgrees(e, start, ids, now);
    RestoreAllKeeps(start, records, now);
    RefreshKeeps(restored, now);
    RefreshIsOpen(restored, now);
    RefreshedSoFar(e, restored, ids, now);
  }

  lemma RefreshIsOpen(s: State, now: Time)
    ensures RefreshTimer(s, now).closed == s.closed
  {
    hide EarliestPlan;
  }

  lemma RefreshedSoFar(e: Engine, s: State, ids: seq<TaskID>, now: Time)
    requires RestoredSoFar(e, s, ids, now)
    ensures RestoredSoFar(e, RefreshTimer(s, now), ids, now)
  {
    hide Projects, P.Next, EarliestPlan;
    forall id | id in ids ensures RestoredAs(RefreshTimer(s, now), id, e.lives[id], now) {
      RefreshProjects(s, now, id, P.Next(e.lives[id].world, e.lives[id].cell, P.Event.Restore(now, true)).value);
    }
  }

  lemma RestartedLife(e: Engine, s: State, id: TaskID, now: Time)
    requires EngineInv(e) && e.scheduler.None? && id in e.lives
    requires var life, event := e.lives[id], P.Event.Restore(now, true);
             P.Next(life.world, life.cell, event).Some? && Projects(s, id, P.Next(life.world, life.cell, event).value)
    ensures var life := Goes(e.lives[id], [P.Event.Restore(now, true)]); LifeOK(life) && Projects(s, id, life.cell)
  {
    hide EngineInv, LifeOK, Projects, P.Next, Performed;
    DownLife(e, id);
    var life, event := e.lives[id], P.Event.Restore(now, true);
    OneStep(life.world, life.own, life.cell, event);
    LifeGoesOn(life, [event]);
  }

  lemma RefreshProjects(s: State, now: Time, id: TaskID, c: P.Cell)
    requires Projects(s, id, c)
    ensures Projects(RefreshTimer(s, now), id, c)
  {
    hide EarliestPlan;
    OthersStay(s, RefreshTimer(s, now), id, c);
  }

  /** Every move of the engine keeps the invariant. */
  lemma MoveKeeps(e: Engine, move: Move)
    requires EngineInv(e) && After(e, move).Some?
    ensures EngineInv(After(e, move).value)
  {
    hide EngineInv, ActMove, TransferMove, SignalMove, DieMove, RestartMove;
    match move {
      case Act(action, unseen, now, world, own) => ActKeeps(e, e.scheduler.value, action, unseen, now, world, own);
      case Transfer(id, event, now) => TransferKeeps(e, e.scheduler.value, id, event, now);
      case Signal(id) => SignalKeeps(e, e.scheduler.value, id);
      case Die(exiting) => DieKeeps(e, e.scheduler.value, exiting);
      case Restart(ids, maxConcurrent, maxRetries, now) => RestartKeeps(e, ids, maxConcurrent, maxRetries, now);
    }
  }

  lemma {:induction false} RunsKeepAgreement(from: Engine, moves: seq<Move>, to: Engine)
    requires EngineInv(from) && Runs(from, moves, to)
    ensures EngineInv(to)
    decreases |moves|
  {
    if moves != [] {
      hide EngineInv, After;
      MoveKeeps(from, moves[0]);
      RunsKeepAgreement(After(from, moves[0]).value, moves[1..], to);
    }
  }

  // ---------------------------------------------------------------------
  // What holds of every task

  /** The engine before its first start. */
  function Empty(): Engine {
    Engine(None, map[])
  }

  /**
   Whatever the engine did, with any number of tasks, transfers, crashes and restarts: it knows a task exactly if
   the task lives, the life of each is an honest run of the transfer protocol from its creation, and the scheduler
   knows of it what its protocol knows.
   */
  lemma EveryTaskLivesItsProtocol(moves: seq<Move>, e: Engine, id: TaskID)
    requires Runs(Empty(), moves, e) && id in e.lives
    ensures var life := e.lives[id];
            && W.ReachedWith(life.world, life.own, life.input.expectedSize, life.input.scheduledAt,
                             life.input.acceptRanges, life.input.validator, life.history, life.cell)
            && (e.scheduler.Some? ==>
                  e.scheduler.value.tasks.Keys == e.lives.Keys && Projects(e.scheduler.value, id, life.cell))
  {
    RunsKeepAgreement(Empty(), moves, e);
    hide P.LeadsWith, Inv, Projects;
  }

  /**
   So the files of all tasks are as the protocol promises: without a Range of its own, a published file holds bytes
   of one version from its beginning; with segments, it is the version the task was created for.
   */
  lemma EveryFileIsOneVersion(moves: seq<Move>, e: Engine, id: TaskID)
    requires Runs(Empty(), moves, e) && id in e.lives && e.lives[id].cell.disk.dest.Some?
    ensures var Life(world, own, input, _, cell) := e.lives[id];
            && (own.None? ==> cell.published.Some? && cell.disk.dest.value <= world(cell.published.value.version))
            && (P.UsesSegments(input.expectedSize, input.acceptRanges, input.validator) ==>
                  cell.disk.dest.value == world(input.validator.value))
  {
    var life := e.lives[id];
    var NewDownload(expectedSize, scheduledAt, acceptRanges, validator) := life.input;
    EveryTaskLivesItsProtocol(moves, e, id);
    hide P.LeadsWith;
    if life.own.None? {
      T.NothingSpliced(life.world, expectedSize, scheduledAt, acceptRanges, validator, life.history, life.cell);
    }
    if P.UsesSegments(expectedSize, acceptRanges, validator) {
      W.SegmentsAreSafeWithAnyRange(life.world, life.own, expectedSize, scheduledAt, validator.value, life.history,
                                    life.cell);
    }
  }
}
