/**
 Where a download may be saved: the search for a free file name, the name of
 the work file, and when two tasks may not touch each other's files.
 */
module FileNames {
  import opened Basics
  import opened Decimals
  import opened Sequences
  import opened Tasks

  const DOT: Byte := 46
  /** " (", ")", "." and ".downpeed" in ASCII. */
  const OPENING: Bytes := [32, 40]
  const CLOSING: Bytes := [41]
  const WORK_PREFIX: Bytes := [DOT]
  const WORK_SUFFIX: Bytes := [DOT, 100, 111, 119, 110, 112, 101, 101, 100]

  /** A clean absolute directory and a name without separators. */
  datatype Path = Path(directory: Bytes, name: Bytes)

  // ---------------------------------------------------------------------
  // Names

  /** The position of the last dot, or the end of the name. */
  function LastDot(name: Bytes): (i: nat)
    ensures i <= |name|
    ensures forall j :: i < j < |name| ==> name[j] != DOT
    ensures i < |name| ==> name[i] == DOT
    ensures i == |name| ==> forall j :: 0 <= j < |name| ==> name[j] != DOT
  {
    if name == [] then 0
    else if name[|name| - 1] == DOT then |name| - 1
    else
      var i := LastDot(name[..|name| - 1]);
      if i == |name| - 1 then |name| else i
  }

  function Extension(name: Bytes): Bytes {
    name[LastDot(name)..]
  }

  function BaseName(name: Bytes): Bytes {
    name[..LastDot(name)]
  }

  function CopyFileName(name: Bytes, copyNumber: nat): Bytes {
    BaseName(name) + OPENING + DecimalNat(copyNumber) + CLOSING + Extension(name)
  }

  function Candidate(name: Bytes, copyNumber: nat): Bytes {
    if copyNumber == 0 then name else CopyFileName(name, copyNumber)
  }

  function TemporaryPath(destination: Path): Path {
    Path(destination.directory, WORK_PREFIX + destination.name + WORK_SUFFIX)
  }

  /** The candidates of one name are all different. */
  lemma CandidatesDiffer(name: Bytes, a: nat, b: nat)
    requires Candidate(name, a) == Candidate(name, b)
    ensures a == b
  {
    if a != 0 && b != 0 {
      var head, tail := BaseName(name) + OPENING, CLOSING + Extension(name);
      assert head + DecimalNat(a) + tail == CopyFileName(name, a)
             && head + DecimalNat(b) + tail == CopyFileName(name, b);
      MiddleIsUnique(head, DecimalNat(a), DecimalNat(b), tail);
      DecimalNatInjective(a, b);
    } else {
      CopyIsLonger(name, a);
      CopyIsLonger(name, b);
    }
  }

  lemma CopyIsLonger(name: Bytes, copyNumber: nat)
    ensures |name| < |CopyFileName(name, copyNumber)|
  {
  }

  lemma MiddleIsUnique(head: Bytes, a: Bytes, b: Bytes, tail: Bytes)
    requires head + a + tail == head + b + tail
    ensures a == b
  {
    assert |a| == |b|;
    assert a == (head + a + tail)[|head|..|head| + |a|];
    assert b == (head + b + tail)[|head|..|head| + |b|];
  }

  /** Every copy keeps the extension, and a name that does not begin with a dot does not come to begin with one. */
  lemma CopiesKeepTheirKind(name: Bytes, copyNumber: nat)
    ensures Extension(Candidate(name, copyNumber)) == Extension(name)
    ensures name != [] && name[0] != DOT ==> Candidate(name, copyNumber)[0] != DOT
  {
    if copyNumber != 0 {
      var copy := CopyFileName(name, copyNumber);
      var number := OPENING + DecimalNat(copyNumber) + CLOSING;
      DecimalNatReads(copyNumber);
      assert forall j :: 0 <= j < |number| ==> number[j] != DOT;
      assert copy == BaseName(name) + number + Extension(name);
      LastDotOfCopy(BaseName(name), number, Extension(name), copy);
    }
  }

  lemma LastDotOfCopy(head: Bytes, number: Bytes, tail: Bytes, copy: Bytes)
    requires copy == head + number + tail
    requires forall j :: 0 <= j < |number| ==> number[j] != DOT
    requires forall j :: 0 < j < |tail| ==> tail[j] != DOT
    requires tail != [] ==> tail[0] == DOT
    requires tail == [] ==> forall j :: 0 <= j < |head| ==> head[j] != DOT
    ensures Extension(copy) == tail
  {
    var at := |head| + |number|;
    assert forall j :: at < j < |copy| ==> copy[j] == tail[j - at];
    if tail == [] {
      assert forall j :: 0 <= j < |copy| ==> copy[j] != DOT;
    } else {
      assert copy[at] == DOT;
    }
    assert LastDot(copy) == at;
    assert copy[at..] == tail;
  }

  /** Copies are numbered from one, in front of the last extension; the first candidate is the name itself. */
  lemma CopiesAreNumbered(stem: Bytes, extension: Bytes, copyNumber: nat)
    requires forall j :: 0 <= j < |extension| ==> extension[j] != DOT
    requires 0 < copyNumber
    ensures var name := stem + [DOT] + extension;
            && Candidate(name, 0) == name
            && Candidate(name, copyNumber)
               == stem + [32, 40] + DecimalNat(copyNumber) + [41] + [DOT] + extension
    ensures (forall j :: 0 <= j < |stem| ==> stem[j] != DOT) ==>
              && Candidate(stem, 0) == stem
              && Candidate(stem, copyNumber) == stem + [32, 40] + DecimalNat(copyNumber) + [41]
  {
    var name := stem + [DOT] + extension;
    assert forall j :: |stem| < j < |name| ==> name[j] == extension[j - |stem| - 1];
    ExtensionBegins(name, |stem|);
    assert name[..|stem|] == stem && name[|stem|..] == [DOT] + extension;
    if forall j :: 0 <= j < |stem| ==> stem[j] != DOT {
      ExtensionBegins(stem, |stem|);
      assert stem[..|stem|] == stem && stem[|stem|..] == [];
    }
    hide LastDot, DecimalNat;
    assert CopyFileName(name, copyNumber)
        == stem + [32, 40] + DecimalNat(copyNumber) + [41] + ([DOT] + extension);
  }

  lemma ExtensionBegins(name: Bytes, at: nat)
    requires at <= |name| && (at < |name| ==> name[at] == DOT) && forall j :: at < j < |name| ==> name[j] != DOT
    requires at == |name| ==> forall j :: 0 <= j < |name| ==> name[j] != DOT
    ensures BaseName(name) == name[..at] && Extension(name) == name[at..]
  {
    assert LastDot(name) == at;
  }

  lemma WorkPathsDiffer(a: Path, b: Path)
    requires TemporaryPath(a) == TemporaryPath(b)
    ensures a == b
  {
    MiddleIsUnique(WORK_PREFIX, a.name, b.name, WORK_SUFFIX);
  }

  // ---------------------------------------------------------------------
  // The search

  datatype Presence = Present | Unreadable

  datatype Policy = Reject | Uniquify

  datatype Selection = Chosen(copyNumber: nat, destination: Path, workPath: Path) | DestinationExists | CannotCheck

  /** What a task holds on to while it is not in a terminal state. */
  datatype Claim = Claim(state: TaskState, destination: Path)

  function Occupied(tasks: map<nat, Claim>): set<Path> {
    set id | id in tasks && !IsTerminalState(tasks[id].state) :: tasks[id].destination
  }

  function DestinationOf(directory: Bytes, name: Bytes, copyNumber: nat): Path {
    Path(directory, Candidate(name, copyNumber))
  }

  predicate Checkable(disk: map<Path, Presence>, destination: Path) {
    && (destination in disk ==> disk[destination].Present?)
    && (TemporaryPath(destination) in disk ==> disk[TemporaryPath(destination)].Present?)
  }

  predicate Free(occupied: set<Path>, disk: map<Path, Presence>, destination: Path) {
    destination !in occupied && destination !in disk && TemporaryPath(destination) !in disk
  }

  /** The search goes on past this destination. */
  predicate Taken(occupied: set<Path>, disk: map<Path, Presence>, destination: Path) {
    Checkable(disk, destination) && !Free(occupied, disk, destination)
  }

  /** The first `n` candidates are all taken. */
  ghost predicate AllTaken(occupied: set<Path>, disk: map<Path, Presence>, directory: Bytes, name: Bytes, n: nat) {
    forall k :: 0 <= k < n ==> Taken(occupied, disk, DestinationOf(directory, name, k))
  }

  /** The paths that can stop a candidate: those that stop its destination, and those that stop its work file. */
  ghost function Obstacles(occupied: set<Path>, disk: map<Path, Presence>): set<(bool, Path)> {
    (set p | p in occupied + disk.Keys :: (true, p)) + (set p | p in disk.Keys :: (false, p))
  }

  ghost function Obstacle(occupied: set<Path>, disk: map<Path, Presence>, destination: Path): (bool, Path) {
    if destination in occupied || destination in disk then (true, destination) else (false, TemporaryPath(destination))
  }

  /** Every skipped candidate is stopped by an obstacle of its own, so there are no more of them than obstacles. */
  lemma {:induction false} SearchIsBounded(occupied: set<Path>, disk: map<Path, Presence>, directory: Bytes,
                                           name: Bytes, n: nat)
    returns (hit: set<(bool, Path)>)
    requires AllTaken(occupied, disk, directory, name, n)
    ensures n <= |Obstacles(occupied, disk)|
    ensures hit <= Obstacles(occupied, disk) && |hit| == n
    ensures forall o :: o in hit ==>
              exists k :: 0 <= k < n && o == Obstacle(occupied, disk, DestinationOf(directory, name, k))
  {
    hide DestinationOf;
    hit := {};
    if n > 0 {
      var before := SearchIsBounded(occupied, disk, directory, name, n - 1);
      var next := Obstacle(occupied, disk, DestinationOf(directory, name, n - 1));
      if next in before {
        var k :| 0 <= k < n - 1 && next == Obstacle(occupied, disk, DestinationOf(directory, name, k));
        ObstaclesDiffer(occupied, disk, directory, name, k, n - 1);
      }
      assert Taken(occupied, disk, DestinationOf(directory, name, n - 1));
      hit := before + {next};
      assert |before + {next}| == |before| + 1;
    }
    SubsetCount(hit, Obstacles(occupied, disk));
  }

  lemma ObstaclesDiffer(occupied: set<Path>, disk: map<Path, Presence>, directory: Bytes, name: Bytes, a: nat, b: nat)
    requires Obstacle(occupied, disk, DestinationOf(directory, name, a))
             == Obstacle(occupied, disk, DestinationOf(directory, name, b))
    ensures a == b
  {
    var first, second := DestinationOf(directory, name, a), DestinationOf(directory, name, b);
    if first != second {
      WorkPathsDiffer(first, second);
    }
    CandidatesDiffer(name, a, b);
  }

  /**
   The search ends, and under the policy that renames it ends at the least copy number that is not taken:
   chosen if both its paths are free, given up if one of them cannot be checked. Under the other policy
   only the name itself is tried.
   */
  method SelectDestination(tasks: map<nat, Claim>, disk: map<Path, Presence>, policy: Policy, directory: Bytes,
                           name: Bytes)
    returns (selection: Selection)
    ensures var occupied := Occupied(tasks);
            match selection
            case Chosen(copyNumber, chosen, workPath) =>
              && chosen == DestinationOf(directory, name, copyNumber) && workPath == TemporaryPath(chosen)
              && Free(occupied, disk, chosen) && AllTaken(occupied, disk, directory, name, copyNumber)
              && (policy == Reject ==> copyNumber == 0)
            case CannotCheck =>
              exists n: nat ::
                && AllTaken(occupied, disk, directory, name, n) && !Checkable(disk, DestinationOf(directory, name, n))
                && (policy == Reject ==> n == 0)
            case DestinationExists => policy == Reject && Taken(occupied, disk, DestinationOf(directory, name, 0))
  {
    var occupied := BuildOccupied(tasks);
    var copyNumber: nat := 0;
    while true
      invariant policy == Reject ==> copyNumber == 0
      invariant AllTaken(occupied, disk, directory, name, copyNumber)
      decreases |Obstacles(occupied, disk)| - copyNumber
    {
      var destination := DestinationOf(directory, name, copyNumber);
      var workPath := TemporaryPath(destination);
      if destination in disk && disk[destination].Unreadable? {
        assert !Checkable(disk, DestinationOf(directory, name, copyNumber));
        return CannotCheck;
      }
      if workPath in disk && disk[workPath].Unreadable? {
        assert !Checkable(disk, DestinationOf(directory, name, copyNumber));
        return CannotCheck;
      }
      if destination !in occupied && destination !in disk && workPath !in disk {
        return Chosen(copyNumber, destination, workPath);
      }
      if policy != Uniquify {
        return DestinationExists;
      }
      ghost var _ := SearchIsBounded(occupied, disk, directory, name, copyNumber + 1);
      copyNumber := copyNumber + 1;
    }
  }

  method BuildOccupied(tasks: map<nat, Claim>) returns (occupied: set<Path>)
    ensures occupied == Occupied(tasks)
  {
    occupied := {};
    var remaining := tasks.Keys;
    while remaining != {}
      invariant remaining <= tasks.Keys
      invariant occupied == set id | id in tasks && id !in remaining && !IsTerminalState(tasks[id].state) ::
                tasks[id].destination
    {
      var id :| id in remaining;
      remaining := remaining - {id};
      if !IsTerminalState(tasks[id].state) {
        occupied := occupied + {tasks[id].destination};
      }
    }
  }

  // ---------------------------------------------------------------------
  // Exclusive paths

  predicate Disjoint(a: Path, b: Path) {
    a != b && TemporaryPath(a) != TemporaryPath(b) && TemporaryPath(a) != b && a != TemporaryPath(b)
  }

  /** No two tasks that are not over share a file, neither a destination nor a work file. */
  ghost predicate Exclusive(tasks: map<nat, Claim>) {
    forall a, b ::
      a in tasks && b in tasks && a != b && !IsTerminalState(tasks[a].state) && !IsTerminalState(tasks[b].state) ==>
                     Disjoint(tasks[a].destination, tasks[b].destination)
  }

  /** What the cleaning of file names ensures. */
  predicate CleanName(name: Bytes) {
    name != [] && name[0] != DOT
  }

  ghost predicate CleanNames(tasks: map<nat, Claim>) {
    forall id :: id in tasks ==> CleanName(tasks[id].destination.name)
  }

  /** A work file is never the destination of a task, so different destinations are enough. */
  lemma DifferentIsDisjoint(a: Path, b: Path)
    requires CleanName(a.name) && CleanName(b.name)
    ensures Disjoint(a, b) <==> a != b
  {
    if a != b {
      if TemporaryPath(a) == TemporaryPath(b) {
        WorkPathsDiffer(a, b);
      }
      assert TemporaryPath(a).name[0] == DOT && TemporaryPath(b).name[0] == DOT;
    }
  }

  /** A task created on a selected destination shares no file with the tasks that are not over, and overwrites none. */
  lemma CreationKeepsExclusive(tasks: map<nat, Claim>, disk: map<Path, Presence>, directory: Bytes, name: Bytes,
                               copyNumber: nat, id: nat)
    requires Exclusive(tasks) && CleanNames(tasks) && CleanName(name) && id !in tasks
    requires Free(Occupied(tasks), disk, DestinationOf(directory, name, copyNumber))
    ensures var after := tasks[id := Claim(Queued, DestinationOf(directory, name, copyNumber))];
            Exclusive(after) && CleanNames(after)
    ensures var destination := DestinationOf(directory, name, copyNumber);
            destination !in disk && TemporaryPath(destination) !in disk
  {
    var destination := DestinationOf(directory, name, copyNumber);
    CopiesKeepTheirKind(name, copyNumber);
    forall other | other in tasks && !IsTerminalState(tasks[other].state)
      ensures Disjoint(tasks[other].destination, destination) && Disjoint(destination, tasks[other].destination)
    {
      assert tasks[other].destination in Occupied(tasks);
      DifferentIsDisjoint(tasks[other].destination, destination);
      DifferentIsDisjoint(destination, tasks[other].destination);
    }
  }

  /**
   A manual retry looks only at the files; it keeps the paths exclusive exactly if no task that is not over has its
   destination.
   */
  lemma RetryKeepsExclusive(tasks: map<nat, Claim>, id: nat)
    requires Exclusive(tasks) && CleanNames(tasks) && id in tasks && tasks[id].state == Failed
    ensures Exclusive(tasks[id := tasks[id].(state := Queued)]) <==> tasks[id].destination !in Occupied(tasks)
  {
    var after := tasks[id := tasks[id].(state := Queued)];
    if tasks[id].destination in Occupied(tasks) {
      var other :| other in tasks && !IsTerminalState(tasks[other].state)
        && tasks[other].destination == tasks[id].destination;
      assert !Disjoint(after[id].destination, after[other].destination);
    } else {
      forall other | other in tasks && other != id && !IsTerminalState(tasks[other].state)
        ensures Disjoint(tasks[other].destination, tasks[id].destination)
                && Disjoint(tasks[id].destination, tasks[other].destination)
      {
        assert tasks[other].destination in Occupied(tasks);
        DifferentIsDisjoint(tasks[other].destination, tasks[id].destination);
        DifferentIsDisjoint(tasks[id].destination, tasks[other].destination);
      }
    }
  }

  /**
   The failing case: a task fails, a second one is created with the same name while no file exists, and the
   first one is retried. Each step passes its own checks, and then both write the same work file.
   */
  lemma RetryCanShareThePath(directory: Bytes, name: Bytes)
    requires CleanName(name)
    ensures var destination := Path(directory, name);
            var failed: map<nat, Claim> := map[1 := Claim(Failed, destination)];
            var both := failed[2 := Claim(Queued, DestinationOf(directory, name, 0))];
            && Free(Occupied(failed), map[], DestinationOf(directory, name, 0))
            && Exclusive(both)
            && !Exclusive(both[1 := both[1].(state := Queued)])
  {
    var destination := Path(directory, name);
    var both: map<nat, Claim> := map[1 := Claim(Failed, destination), 2 := Claim(Queued, destination)];
    var retried := both[1 := both[1].(state := Queued)];
    assert !Disjoint(retried[1].destination, retried[2].destination);
    assert map[1 := Claim(Failed, destination)][2 := Claim(Queued, destination)] == both;
  }
}
