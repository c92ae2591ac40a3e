/** What the scheduler keeps in every reachable state, and what a fill does exactly. */
module SchedulerSafety {
  import opened Basics
  import opened Sequences
  import opened Tasks
  import opened SchedulerSpec

  // ---------------------------------------------------------------------
  // Popping

  lemma {:induction false} PopBounds(s: State, now: Time, queue: seq<TaskID>, free: nat)
    ensures PopCount(s, now, queue, free) <= |queue|
    ensures |DueOf(s, now, queue[..PopCount(s, now, queue, free)])| <= free
    ensures PopCount(s, now, queue, free) < |queue| ==> |DueOf(s, now, queue[..PopCount(s, now, queue, free)])| == free
  {
    if free != 0 && queue != [] {
      var rest := if Due(s, now, queue[0]) then (free - 1) as nat else free;
      PopBounds(s, now, queue[1..], rest);
      var n := PopCount(s, now, queue[1..], rest);
      assert queue[..n + 1][1..] == queue[1..][..n];
    }
  }

  /** Popping starts exactly the first due tasks, as many as there are free slots. */
  lemma {:induction false} PopTakesFirstDue(s: State, now: Time, queue: seq<TaskID>, free: nat)
    ensures PopCount(s, now, queue, free) <= |queue|
    ensures DueOf(s, now, queue[..PopCount(s, now, queue, free)])
            == DueOf(s, now, queue)[..Min(free, |DueOf(s, now, queue)|)]
  {
    PopBounds(s, now, queue, free);
    var n := PopCount(s, now, queue, free);
    FilterAppend(queue[..n], queue[n..], id => Due(s, now, id));
    assert queue == queue[..n] + queue[n..];
    if n == |queue| {
      assert queue[..n] == queue;
    }
  }

  // ---------------------------------------------------------------------
  // Starting

  /** `after` is `s` with the tasks of `ids`, and no others, started. */
  ghost predicate StartedFrom(s: State, after: State, ids: set<TaskID>) {
    && TasksFrom(s.tasks, after.tasks, ids)
    && RunsFrom(s.runs, after.runs, ids, s.nextRun, after.nextRun)
    && LiveFrom(s.live, after.live, after.runs, ids)
    && after.requests == s.requests && after.waiters == s.waiters && after.hold == s.hold && after.closed == s.closed
    && after.maxConcurrent == s.maxConcurrent && after.maxRetries == s.maxRetries
  }

  ghost predicate TasksFrom(tasks: map<TaskID, Task>, after: map<TaskID, Task>, ids: set<TaskID>) {
    && after.Keys == tasks.Keys
    && forall id :: id in tasks ==> after[id] == if id in ids then Started(tasks[id]) else tasks[id]
  }

  /** Each task of `ids` has a run with a new token. */
  ghost predicate RunsFrom(runs: map<TaskID, nat>, after: map<TaskID, nat>, ids: set<TaskID>, from: nat, to: nat) {
    && (forall id :: id in after <==> id in runs || id in ids)
    && (forall id :: id in runs ==> after[id] == runs[id])
    && (forall id :: id in ids ==> from <= after[id] < to)
    && |after| == |runs| + |ids|
    && from <= to
  }

  /** One new goroutine for each task of `ids`. */
  ghost predicate LiveFrom(live: set<(TaskID, nat)>, after: set<(TaskID, nat)>, runs: map<TaskID, nat>,
                           ids: set<TaskID>) {
    forall id, token :: (id, token) in after <==> (id, token) in live || (id in ids && id in runs && runs[id] == token)
  }

  lemma StartOneAddsItsRun(runs: map<TaskID, nat>, mid: map<TaskID, nat>, ids: set<TaskID>, from: nat, next: nat,
                           id: TaskID)
    requires RunsFrom(runs, mid, ids, from, next) && id !in runs && id !in ids
    ensures RunsFrom(runs, mid[id := next], ids + {id}, from, next + 1)
  {
    NewKeyCounts(mid, id, next);
    NewElementCounts(ids, id);
  }

  lemma NewKeyCounts(runs: map<TaskID, nat>, id: TaskID, token: nat)
    requires id !in runs
    ensures |runs[id := token]| == |runs| + 1
  {
    assert runs[id := token].Keys == runs.Keys + {id};
    assert |runs[id := token].Keys| == |runs[id := token]|;
  }

  lemma NewElementCounts(ids: set<TaskID>, id: TaskID)
    requires id !in ids
    ensures |ids + {id}| == |ids| + 1
  {
  }

  lemma StartOneAddsItsGoroutine(live: set<(TaskID, nat)>, mid: set<(TaskID, nat)>, runs: map<TaskID, nat>,
                                 ids: set<TaskID>, next: nat, id: TaskID)
    requires LiveFrom(live, mid, runs, ids) && id !in ids
    ensures LiveFrom(live, mid + {(id, next)}, runs[id := next], ids + {id})
  {
  }

  lemma StartOneExtends(s: State, mid: State, ids: set<TaskID>, id: TaskID)
    requires StartedFrom(s, mid, ids) && id in s.tasks && id !in s.runs && id !in ids
    ensures StartedFrom(s, StartOne(mid, id), ids + {id})
  {
    hide RunsFrom, LiveFrom;
    StartOneAddsItsRun(s.runs, mid.runs, ids, s.nextRun, mid.nextRun, id);
    StartOneAddsItsGoroutine(s.live, mid.live, mid.runs, ids, mid.nextRun, id);
  }

  function Members(ids: seq<TaskID>): set<TaskID> {
    set id | id in ids
  }

  lemma StartNone(s: State)
    ensures StartedFrom(s, s, {})
  {
  }

  lemma {:induction false} StartAllFacts(s: State, ids: seq<TaskID>)
    requires NoDuplicates(ids)
    requires forall id :: id in ids ==> id in s.tasks && id !in s.runs
    ensures StartedFrom(s, StartAll(s, ids), Members(ids))
    ensures StartAll(s, ids).queue == s.queue && StartAll(s, ids).generation == s.generation
  {
    hide StartedFrom;
    if ids == [] {
      assert Members(ids) == {};
      StartNone(s);
    } else {
      var init := ids[..|ids| - 1];
      var last := ids[|ids| - 1];
      NoDuplicatesSplit(ids, |ids| - 1);
      assert last in ids[|ids| - 1..];
      StartAllFacts(s, init);
      StartOneExtends(s, StartAll(s, init), Members(init), last);
      assert ids == init + [last];
      assert Members(ids) == Members(init) + {last};
    }
  }

  // ---------------------------------------------------------------------
  // The timer

  lemma {:induction false} EarliestPlanIsLeast(s: State, now: Time, queue: seq<TaskID>)
    ensures var earliest := EarliestPlan(s, now, queue);
            && (earliest.Some? <==> exists id :: id in queue && Deferred(s, now, id))
            && (earliest.Some? ==>
                  exists id :: id in queue && Deferred(s, now, id) && s.tasks[id].scheduledAt == earliest)
            && (forall id :: id in queue && Deferred(s, now, id) ==> earliest.value <= s.tasks[id].scheduledAt.value)
  {
    if queue != [] {
      var init := queue[..|queue| - 1];
      var last := queue[|queue| - 1];
      EarliestPlanIsLeast(s, now, init);
      assert queue == init + [last];
    }
  }

  // ---------------------------------------------------------------------
  // The fill

  /** What a fill needs: no duplicates, and no queued task that still has a run. */
  ghost predicate FillReady(s: State) {
    && NoDuplicates(s.queue)
    && (forall id :: id in s.queue && IsQueued(s, id) ==> id !in s.runs)
    && (forall id :: id in s.runs ==> s.runs[id] < s.nextRun)
  }

  /** The popped prefix of the queue. */
  function Popped(s: State, now: Time): nat
    ensures Popped(s, now) <= |s.queue|
  {
    Min(PopCount(s, now, s.queue, FreeSlots(s)), |s.queue|)
  }

  lemma FillStartsFacts(s: State, now: Time)
    requires NoDuplicates(s.queue)
    ensures NoDuplicates(FillStarts(s, now))
    ensures forall id :: id in FillStarts(s, now) <==> id in s.queue[..Popped(s, now)] && Due(s, now, id)
    ensures |FillStarts(s, now)| <= FreeSlots(s)
    ensures Popped(s, now) < |s.queue| ==> |FillStarts(s, now)| == FreeSlots(s)
  {
    var n := Popped(s, now);
    PopBounds(s, now, s.queue, FreeSlots(s));
    NoDuplicatesSplit(s.queue, n);
    FilterNoDuplicates(s.queue[..n], id => Due(s, now, id));
    FilterFacts(s.queue[..n], id => Due(s, now, id));
  }

  lemma FillLeavesFacts(s: State, now: Time)
    requires NoDuplicates(s.queue)
    ensures NoDuplicates(FillLeaves(s, now))
    ensures forall id :: id in FillLeaves(s, now) <==>
                           id in s.queue[Popped(s, now)..] || (id in s.queue[..Popped(s, now)] && Deferred(s, now, id))
  {
    var n := Popped(s, now);
    var kept := DeferredOf(s, now, s.queue[..n]);
    NoDuplicatesSplit(s.queue, n);
    FilterNoDuplicates(s.queue[..n], id => Deferred(s, now, id));
    FilterFacts(s.queue[..n], id => Deferred(s, now, id));
    NoDuplicatesConcat(s.queue[n..], kept);
  }

  /** Filling starts exactly the first due tasks in queue order, as many as there are free slots. */
  lemma FillStartsFirstDue(s: State, now: Time)
    ensures var due := DueOf(s, now, s.queue);
            FillStarts(s, now) == due[..Min(FreeSlots(s), |due|)]
  {
    PopTakesFirstDue(s, now, s.queue, FreeSlots(s));
  }

  /** What is due and not started keeps its place in the order of the due tasks. */
  lemma FillKeepsDueOrder(s: State, now: Time)
    ensures DueOf(s, now, s.queue) == FillStarts(s, now) + DueOf(s, now, FillLeaves(s, now))
  {
    var n := Popped(s, now);
    var deferred := DeferredOf(s, now, s.queue[..n]);
    FilterAppend(s.queue[..n], s.queue[n..], id => Due(s, now, id));
    assert s.queue == s.queue[..n] + s.queue[n..];
    FilterAppend(s.queue[n..], deferred, id => Due(s, now, id));
    FilterFacts(s.queue[..n], id => Deferred(s, now, id));
    var both := DueOf(s, now, deferred);
    assert both != [] ==> both[0] in both;
    FilterFacts(deferred, id => Due(s, now, id));
  }

  /** No queued task is lost or duplicated by a fill: each is started or still queued. */
  lemma FillLosesNothing(s: State, now: Time)
    requires OpenInv(s)
    ensures multiset(s.queue) == multiset(FillStarts(s, now)) + multiset(FillLeaves(s, now))
    ensures forall id :: id in FillStarts(s, now) ==> id in s.tasks && !InFuture(s.tasks[id], now)
  {
    var n := Popped(s, now);
    var popped := s.queue[..n];
    assert s.queue == popped + s.queue[n..];
    forall id | id in popped ensures Due(s, now, id) != Deferred(s, now, id) {
      assert id in s.queue;
    }
    FilterMultiset(popped, id => Due(s, now, id), id => Deferred(s, now, id));
    FilterFacts(popped, id => Due(s, now, id));
  }

  /** A fill, told by what it starts and what it leaves queued. */
  ghost predicate Filled(s: State, after: State, starts: seq<TaskID>, leaves: seq<TaskID>) {
    && StartedFrom(s, after, Members(starts))
    && NoDuplicates(starts)
    && after.queue == leaves
    && after.generation == s.generation + 1
    && (after.timer.Some? ==> after.timer.value.generation == after.generation)
  }

  lemma FillEffect(s: State, now: Time)
    requires FillReady(s) && !s.closed
    ensures Filled(s, Fill(s, now), FillStarts(s, now), FillLeaves(s, now))
  {
    var starts := FillStarts(s, now);
    var taken := s.(queue := FillLeaves(s, now));
    FillStartsFacts(s, now);
    NoDuplicatesSplit(s.queue, Popped(s, now));
    StartAllFacts(taken, starts);
    StartedFromFrame(s, taken, StartAll(taken, starts), Fill(s, now), Members(starts));
  }

  lemma StartedFromFrame(s: State, t: State, mid: State, after: State, ids: set<TaskID>)
    requires StartedFrom(t, mid, ids)
    requires s == t.(queue := s.queue) && after == mid.(timer := after.timer, generation := after.generation)
    ensures StartedFrom(s, after, ids)
  {
  }

  lemma FilledKeeps(s: State, after: State, starts: seq<TaskID>, leaves: seq<TaskID>)
    requires OpenInv(s) && Filled(s, after, starts, leaves)
    requires NoDuplicates(leaves)
    requires forall id :: id in starts ==> id in s.queue
    requires forall id :: id in leaves <==> id in s.queue && id !in starts
    ensures OpenInv(after)
  {
    assert QueueOK(after);
    assert RunsOK(after) by {
      forall id | id in after.runs ensures MayRun(after, id) && after.runs[id] < after.nextRun {
      }
    }
    assert RetriesOK(after);
  }

  lemma FillKeeps(s: State, now: Time)
    requires Inv(s)
    ensures Inv(Fill(s, now))
  {
    if !s.closed {
      FillEffect(s, now);
      FillSplitsQueue(s, now);
      FilledKeeps(s, Fill(s, now), FillStarts(s, now), FillLeaves(s, now));
    }
  }

  lemma FillSplitsQueue(s: State, now: Time)
    requires OpenInv(s)
    ensures NoDuplicates(FillLeaves(s, now))
    ensures forall id :: id in FillStarts(s, now) ==> id in s.queue
    ensures forall id :: id in FillLeaves(s, now) <==> id in s.queue && id !in FillStarts(s, now)
  {
    FillStartsFacts(s, now);
    FillLeavesFacts(s, now);
    NoDuplicatesSplit(s.queue, Popped(s, now));
  }

  /** After a fill either every slot is taken or nothing that is due is queued. */
  lemma FillConservesWork(s: State, now: Time)
    requires OpenInv(s) && !s.closed
    ensures var after := Fill(s, now);
            after.maxConcurrent <= |after.runs| || forall id :: id in after.queue ==> !Due(after, now, id)
  {
    FillEffect(s, now);
    FillStartsFacts(s, now);
    FillSplitsQueue(s, now);
    FillLeavesFacts(s, now);
    var after := Fill(s, now);
    NoDuplicatesCount(FillStarts(s, now), Members(FillStarts(s, now)));
    if |after.runs| < after.maxConcurrent {
      assert Popped(s, now) == |s.queue|;
      assert s.queue[|s.queue|..] == [];
    }
  }

  /** After a fill or a refresh the timer is armed exactly when a planned task is queued, for the earliest plan. */
  lemma TimerIsEarliestPlan(s: State, now: Time)
    requires !s.closed
    ensures var after := RefreshTimer(s, now);
            && (after.timer.Some? <==> exists id :: id in after.queue && Deferred(after, now, id))
            && (after.timer.Some? ==>
                  && after.timer.value.generation == after.generation
                  && (exists id :: id in after.queue && Deferred(after, now, id)
                                   && after.tasks[id].scheduledAt == Some(after.timer.value.at))
                  && (forall id :: id in after.queue && Deferred(after, now, id) ==>
                        after.timer.value.at <= after.tasks[id].scheduledAt.value))
  {
    EarliestPlanIsLeast(s, now, s.queue);
    var after := RefreshTimer(s, now);
    assert forall id :: Deferred(s, now, id) == Deferred(after, now, id);
  }
}
