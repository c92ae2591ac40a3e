/**
 One segment worker, in place: the loops that move response bytes into the
 shared work file and count them in the shared checkpoint.
 */
module SegmentWorker {
  import opened Basics
  import opened Checkpoints
  import opened Tasks
  import opened TransferProtocol
  import S = TransferSafety

  function Flatten(chunks: seq<Bytes>): Bytes {
    if chunks == [] then [] else Flatten(chunks[..|chunks| - 1]) + chunks[|chunks| - 1]
  }

  lemma {:induction false} FlattenPrefix(chunks: seq<Bytes>, k: nat)
    requires k <= |chunks|
    ensures Flatten(chunks[..k]) <= Flatten(chunks)
  {
    if k == |chunks| {
      assert chunks[..k] == chunks;
    } else {
      var init := chunks[..|chunks| - 1];
      FlattenPrefix(init, k);
      assert init[..k] == chunks[..k];
    }
  }

  // ---------------------------------------------------------------------
  // The work file

  /** The file after a write at `position`; writing past its end fills the gap with zeros. */
  function Overwritten(bytes: Bytes, position: nat, value: Bytes): Bytes {
    if value == [] then bytes
    else WriteAt(Truncated(bytes, Max(|bytes|, position + |value|)), position, value)
  }

  /** A file is `healthy` as long as no write to it fails or stands still. */
  class WorkFile {
    const healthy: bool
    var bytes: Bytes

    constructor (bytes: Bytes, healthy: bool)
      ensures this.bytes == bytes && this.healthy == healthy
    {
      this.bytes := bytes;
      this.healthy := healthy;
    }

    /** The operating system writes some prefix of the value, or fails after one. */
    method WriteAt(value: Bytes, offset: nat) returns (count: nat, failed: bool)
      modifies this
      ensures count <= |value| && bytes == Overwritten(old(bytes), offset, value[..count])
      ensures healthy ==> !failed && (value != [] ==> 0 < count)
    {
      count :| 0 <= count <= |value| && (healthy && value != [] ==> 0 < count);
      failed := *;
      if healthy {
        failed := false;
      }
      bytes := Overwritten(bytes, offset, value[..count]);
    }
  }

  lemma OverwrittenLength(bytes: Bytes, position: nat, value: Bytes)
    ensures |Overwritten(bytes, position, value)| == if value == [] then |bytes| else Max(|bytes|, position + |value|)
  {
  }

  /** The byte at `p` after a write. */
  lemma OverwrittenAt(bytes: Bytes, position: nat, value: Bytes, p: nat)
    requires p < |Overwritten(bytes, position, value)|
    ensures Overwritten(bytes, position, value)[p]
            == if position <= p < position + |value| then value[p - position] else if p < |bytes| then bytes[p] else 0
  {
  }

  lemma OverwrittenInside(bytes: Bytes, position: nat, value: Bytes)
    requires position + |value| <= |bytes|
    ensures Overwritten(bytes, position, value) == WriteAt(bytes, position, value)
  {
    assert bytes[..|bytes|] == bytes;
    assert bytes[..position] + bytes[position..] == bytes;
  }

  /** Writing two adjacent pieces is writing them as one. */
  lemma OverwrittenTwice(bytes: Bytes, position: nat, first: Bytes, second: Bytes)
    ensures Overwritten(Overwritten(bytes, position, first), position + |first|, second)
            == Overwritten(bytes, position, first + second)
  {
    hide Overwritten;
    var mid := Overwritten(bytes, position, first);
    var a, b := Overwritten(mid, position + |first|, second), Overwritten(bytes, position, first + second);
    OverwrittenLength(bytes, position, first);
    OverwrittenLength(mid, position + |first|, second);
    OverwrittenLength(bytes, position, first + second);
    forall p | 0 <= p < |a| ensures a[p] == b[p] {
      OverwrittenAt(mid, position + |first|, second, p);
      OverwrittenAt(bytes, position, first + second, p);
      if p < |mid| {
        OverwrittenAt(bytes, position, first, p);
      }
    }
  }

  /** Writes all of the value unless the system fails or writes nothing; short writes are continued. */
  method WriteAllAt(file: WorkFile, value: Bytes, offset: nat) returns (ok: bool, ghost written: nat)
    modifies file
    ensures written <= |value| && file.bytes == Overwritten(old(file.bytes), offset, value[..written])
    ensures (ok ==> written == |value|) && (file.healthy ==> ok)
  {
    hide Overwritten;
    var rest := value;
    var at := offset;
    written := 0;
    NothingOverwritten(file.bytes, offset);
    assert value[..0] == [];
    while |rest| > 0
      invariant written <= |value| && rest == value[written..] && at == offset + written
      invariant file.bytes == Overwritten(old(file.bytes), offset, value[..written])
    {
      var count, failed := file.WriteAt(rest, at);
      OverwrittenTwice(old(file.bytes), offset, value[..written], rest[..count]);
      assert value[..written] + rest[..count] == value[..written + count];
      written := written + count;
      if failed || count == 0 {
        return false, written;
      }
      at := at + count;
      rest := rest[count..];
    }
    ok := true;
    assert value[..written] == value;
  }

  lemma NothingOverwritten(bytes: Bytes, position: nat)
    ensures Overwritten(bytes, position, []) == bytes
  {
  }

  // ---------------------------------------------------------------------
  // The shared checkpoint

  /** The checkpoint all workers of a transfer count in. */
  class SharedProgress {
    const total: int
    var segments: seq<SegmentProgress>

    ghost predicate Valid()
      reads this
    {
      Tiles(segments, 0, total) && ProgressInRange(segments)
    }

    constructor (total: int, segments: seq<SegmentProgress>)
      requires Tiles(segments, 0, total) && ProgressInRange(segments)
      ensures Valid() && this.total == total && this.segments == segments
    {
      this.total := total;
      this.segments := segments;
    }

    /**
     One worker counts bytes of its segment: the layout stays that of the file, no other segment changes, and
     the progress of the whole transfer grows by exactly the bytes counted.
     */
    method Count(index: nat, count: nat)
      requires Valid() && index < |segments| && segments[index].completed + count <= segments[index].Length()
      modifies this
      ensures Valid() && |segments| == |old(segments)|
      ensures SumCompleted(segments) == SumCompleted(old(segments)) + count
      ensures forall i :: 0 <= i < |segments| && i != index ==> segments[i] == old(segments)[i]
      ensures segments[index].start == old(segments)[index].start && segments[index].end == old(segments)[index].end
      ensures segments[index].completed == old(segments)[index].completed + count
    {
      AdvanceSegment(segments, 0, total, index, segments[index].completed + count);
      segments := segments[index := segments[index].(completed := segments[index].completed + count)];
    }
  }

  /** The segment lies in the file and its count in the segment. */
  predicate InFile(segment: SegmentProgress, size: int) {
    0 <= segment.start && segment.end < size && 0 <= segment.completed <= segment.Length()
  }

  lemma SegmentsAreInFile(segments: seq<SegmentProgress>, total: int, index: nat)
    requires Tiles(segments, 0, total) && ProgressInRange(segments) && index < |segments|
    ensures InFile(segments[index], total)
  {
    TilesSplit(segments, 0, total, index);
  }

  // ---------------------------------------------------------------------
  // One worker

  /**
   The worker of segment `was` changed no byte outside the rest of its segment, and put the first
   `received` bytes of the body where they belong.
   */
  ghost predicate Moved(before: Bytes, after: Bytes, was: SegmentProgress, received: int, body: Bytes)
    requires InFile(was, |before|)
  {
    var from := was.start + was.completed;
    && |after| == |before| && 0 <= received <= |body| && received <= was.Length() - was.completed
    && (forall i :: 0 <= i < |before| && !(from <= i <= was.end) ==> after[i] == before[i])
    && after[from..from + received] == body[..received]
  }

  lemma OverwrittenIsMoved(before: Bytes, was: SegmentProgress, counted: Bytes, uncounted: Bytes, body: Bytes)
    requires InFile(was, |before|) && |counted| + |uncounted| <= was.Length() - was.completed && counted <= body
    ensures Moved(before, Overwritten(before, was.start + was.completed, counted + uncounted), was, |counted|, body)
  {
    var from: nat := was.start + was.completed;
    var after := Overwritten(before, from, counted + uncounted);
    OverwrittenLength(before, from, counted + uncounted);
    assert after[from..from + |counted|] == counted;
  }

  /**
   Moves the body of an accepted response into the preallocated file. Whatever the body and the system do,
   only the bytes of this segment and only its own counter change, and the counted bytes are the first ones
   of the body. It succeeds only if the body fills the segment exactly, and then always, unless a write fails.
   */
  method DownloadSegment(file: WorkFile, progress: SharedProgress, index: nat, body: seq<Bytes>, endsWell: bool)
    returns (ok: bool)
    requires progress.Valid() && index < |progress.segments| && |file.bytes| == progress.total
    modifies file, progress
    ensures progress.Valid() && |progress.segments| == |old(progress.segments)| && |file.bytes| == progress.total
    ensures var was := old(progress.segments)[index];
            var received := progress.segments[index].completed - was.completed;
            && InFile(was, |old(file.bytes)|) && Moved(old(file.bytes), file.bytes, was, received, Flatten(body))
            && progress.segments[index] == was.(completed := was.completed + received)
            && SumCompleted(progress.segments) == SumCompleted(old(progress.segments)) + received
            && (ok ==> endsWell && received == |Flatten(body)| == was.Length() - was.completed
                       && file.bytes == Overwritten(old(file.bytes), was.start + was.completed, Flatten(body)))
    ensures var was := old(progress.segments)[index];
            file.healthy && endsWell && |Flatten(body)| == was.Length() - was.completed ==> ok
    ensures forall i :: 0 <= i < |progress.segments| && i != index ==> progress.segments[i] == old(progress.segments)[i]
  {
    hide Overwritten, Moved, Flatten;
    var was := progress.segments[index];
    SegmentsAreInFile(progress.segments, progress.total, index);
    var start: nat := was.start + was.completed;
    var remaining := was.end - start + 1;
    var received := 0;
    var k := 0;
    FlattenNothing(body);
    NothingOverwritten(file.bytes, start);
    while k < |body|
      invariant 0 <= k <= |body|
      invariant 0 <= received <= remaining && received == |Flatten(body[..k])|
      invariant progress.Valid() && |progress.segments| == |old(progress.segments)|
      invariant progress.segments[index] == was.(completed := was.completed + received)
      invariant SumCompleted(progress.segments) == SumCompleted(old(progress.segments)) + received
      invariant forall i :: 0 <= i < |progress.segments| && i != index ==>
                  progress.segments[i] == old(progress.segments)[i]
      invariant file.bytes == Overwritten(old(file.bytes), start, Flatten(body[..k]))
    {
      var chunk := body[k];
      FlattenExtends(body, k);
      if received + |chunk| > remaining {
        assert Flatten(body[..k]) + [] == Flatten(body[..k]);
        OverwrittenIsMoved(old(file.bytes), was, Flatten(body[..k]), [], Flatten(body));
        MovedKeepsLength(old(file.bytes), file.bytes, was, received, Flatten(body));
        return false;
      }
      var allWritten, written := WriteAllAt(file, chunk, start + received);
      OverwrittenTwice(old(file.bytes), start, Flatten(body[..k]), chunk[..written]);
      if !allWritten {
        OverwrittenIsMoved(old(file.bytes), was, Flatten(body[..k]), chunk[..written], Flatten(body));
        MovedKeepsLength(old(file.bytes), file.bytes, was, received, Flatten(body));
        return false;
      }
      assert chunk[..written] == chunk;
      received := received + |chunk|;
      progress.Count(index, |chunk|);
      k := k + 1;
    }
    assert body[..k] == body;
    assert Flatten(body) + [] == Flatten(body);
    OverwrittenIsMoved(old(file.bytes), was, Flatten(body), [], Flatten(body));
    MovedKeepsLength(old(file.bytes), file.bytes, was, received, Flatten(body));
    return endsWell && received == remaining;
  }

  lemma MovedKeepsLength(before: Bytes, after: Bytes, was: SegmentProgress, received: int, body: Bytes)
    requires InFile(was, |before|) && Moved(before, after, was, received, body)
    ensures |after| == |before|
  {
  }

  lemma FlattenNothing(body: seq<Bytes>)
    ensures Flatten(body[..0]) == []
  {
  }

  lemma FlattenExtends(body: seq<Bytes>, k: nat)
    requires k < |body|
    ensures Flatten(body[..k + 1]) == Flatten(body[..k]) + body[k]
    ensures Flatten(body[..k]) <= Flatten(body) && Flatten(body[..k + 1]) <= Flatten(body)
  {
    assert body[..k + 1][..k] == body[..k];
    FlattenPrefix(body, k);
    FlattenPrefix(body, k + 1);
  }

  /** A worker that receives the bytes of one version keeps its segment sound, however far it gets. */
  lemma WorkerStaysSound(before: Bytes, after: Bytes, remote: Bytes, was: SegmentProgress, received: int, body: Bytes)
    requires InFile(was, |before|) && was.end < |remote| && S.SegmentSound(before, remote, was)
    requires Moved(before, after, was, received, body) && body <= remote[was.start + was.completed..]
    ensures S.SegmentSound(after, remote, was.(completed := was.completed + received))
  {
    var from := was.start + was.completed;
    var part := after[from..from + received];
    forall i | was.start <= i < from + received ensures after[i] == remote[i] {
      if i < from {
        assert before[was.start..from][i - was.start] == remote[was.start..from][i - was.start];
      } else {
        assert part[i - from] == body[i - from];
        assert remote[from..][i - from] == remote[i];
      }
    }
    SliceByElement(after, remote, was.start, from + received);
  }

  lemma SliceByElement(a: Bytes, b: Bytes, from: int, to: int)
    requires 0 <= from <= to <= |a| && to <= |b|
    requires forall i :: from <= i < to ==> a[i] == b[i]
    ensures a[from..to] == b[from..to]
  {
  }

  /** Workers of different segments do not touch each other's bytes. */
  lemma WorkersDoNotInterfere(before: Bytes, after: Bytes, remote: Bytes, segments: seq<SegmentProgress>,
                              mine: nat, other: nat, received: int, body: Bytes)
    requires Tiles(segments, 0, |before|) && ProgressInRange(segments)
    requires mine < |segments| && other < |segments| && mine != other
    requires InFile(segments[mine], |before|) && Moved(before, after, segments[mine], received, body)
    requires S.SegmentSound(before, remote, segments[other])
    ensures S.SegmentSound(after, remote, segments[other])
  {
    var theirs := segments[other];
    if mine < other {
      SegmentsDisjoint(segments, 0, |before|, mine, other);
    } else {
      SegmentsDisjoint(segments, 0, |before|, other, mine);
    }
    assert theirs.completed <= theirs.Length();
    ApartStaysSound(before, after, remote, segments[mine], theirs, received, body);
  }

  lemma ApartStaysSound(before: Bytes, after: Bytes, remote: Bytes, mine: SegmentProgress, theirs: SegmentProgress,
                        received: int, body: Bytes)
    requires InFile(mine, |before|) && Moved(before, after, mine, received, body)
    requires S.SegmentSound(before, remote, theirs) && theirs.completed <= theirs.Length()
    requires mine.end < theirs.start || theirs.end < mine.start
    ensures S.SegmentSound(after, remote, theirs)
  {
    var from, to := theirs.start, theirs.start + theirs.completed;
    forall i | from <= i < to ensures after[i] == remote[i] {
      assert before[from..to][i - from] == remote[from..to][i - from];
    }
    SliceByElement(after, remote, from, to);
  }

  // ---------------------------------------------------------------------
  // The loop is a run of the protocol

  /** The transfer is segmented, and its worker `i` has written `ahead` bytes that it has not counted. */
  ghost predicate Reading(c: Cell, i: nat, version: Version, ahead: nat, file: Bytes, segments: seq<SegmentProgress>) {
    && c.memory.Up? && c.memory.run.Some? && HasWorker(c, i) && c.disk.work == Some(file)
    && c.memory.run.value.phase.workers[i] == Receiving(version, ahead)
    && c.memory.run.value.phase.checkpoint.segments == segments
  }

  lemma ChunkIsWritten(world: World, c: Cell, i: nat, version: Version, file: Bytes, segments: seq<SegmentProgress>,
                       chunk: Bytes)
    requires Reading(c, i, version, 0, file, segments) && i < |segments| && InFile(segments[i], |file|)
    requires segments[i].completed + |chunk| <= segments[i].Length() && segments[i].end < |world(version)|
    requires var from := segments[i].start + segments[i].completed; chunk == world(version)[from..from + |chunk|]
    ensures Next(world, c, SegmentWrite(i, |chunk|)).Some?
    ensures Reading(Next(world, c, SegmentWrite(i, |chunk|)).value, i, version, |chunk|,
                    Overwritten(file, segments[i].start + segments[i].completed, chunk), segments)
  {
    OverwrittenInside(file, segments[i].start + segments[i].completed, chunk);
    hide Overwritten;
  }

  lemma ChunkIsCounted(world: World, c: Cell, i: nat, version: Version, ahead: nat, file: Bytes,
                       segments: seq<SegmentProgress>)
    requires Reading(c, i, version, ahead, file, segments) && i < |segments|
    ensures Next(world, c, SegmentCount(i, false)).Some?
    ensures Reading(Next(world, c, SegmentCount(i, false)).value, i, version, 0, file,
                    segments[i := segments[i].(completed := segments[i].completed + ahead)])
  {
  }

  lemma ChunkIsTwoSteps(world: World, c: Cell, i: nat, version: Version, file: Bytes, segments: seq<SegmentProgress>,
                        chunk: Bytes)
    returns (after: Cell)
    requires Reading(c, i, version, 0, file, segments) && i < |segments| && InFile(segments[i], |file|)
    requires segments[i].completed + |chunk| <= segments[i].Length() && segments[i].end < |world(version)|
    requires var from := segments[i].start + segments[i].completed; chunk == world(version)[from..from + |chunk|]
    ensures Leads(world, c, [SegmentWrite(i, |chunk|), SegmentCount(i, false)], after)
    ensures Reading(after, i, version, 0, Overwritten(file, segments[i].start + segments[i].completed, chunk),
                    segments[i := segments[i].(completed := segments[i].completed + |chunk|)])
  {
    hide Reading, Next, Overwritten;
    ChunkIsWritten(world, c, i, version, file, segments, chunk);
    var wrote := Next(world, c, SegmentWrite(i, |chunk|)).value;
    ChunkIsCounted(world, wrote, i, version, |chunk|,
                   Overwritten(file, segments[i].start + segments[i].completed, chunk), segments);
    after := Next(world, wrote, SegmentCount(i, false)).value;
    EmptyRun(world, None, after);
    StepThen(world, None, wrote, SegmentCount(i, false), after, [], after);
    StepThen(world, None, c, SegmentWrite(i, |chunk|), wrote, [SegmentCount(i, false)], after);
  }

  lemma SliceSplits(remote: Bytes, from: nat, a: Bytes, b: Bytes)
    requires from + |a| + |b| <= |remote| && a + b == remote[from..from + |a + b|]
    ensures a == remote[from..from + |a|] && b == remote[from + |a|..from + |a| + |b|]
  {
    var slice := remote[from..from + |a + b|];
    forall i | 0 <= i < |a| ensures a[i] == remote[from + i] {
      assert (a + b)[i] == slice[i];
    }
    forall i | 0 <= i < |b| ensures b[i] == remote[from + |a| + i] {
      assert (a + b)[|a| + i] == slice[|a| + i];
    }
  }

  /** The body without its last chunk, and that chunk, are where they belong in the version. */
  lemma {:induction false} LastChunk(remote: Bytes, from: nat, body: seq<Bytes>)
    requires body != [] && from + |Flatten(body)| <= |remote| && Flatten(body) == remote[from..from + |Flatten(body)|]
    ensures var first, chunk := Flatten(body[..|body| - 1]), body[|body| - 1];
            && Flatten(body) == first + chunk && first == remote[from..from + |first|]
            && chunk == remote[from + |first|..from + |first| + |chunk|]
  {
    SliceSplits(remote, from, Flatten(body[..|body| - 1]), body[|body| - 1]);
  }

  /**
   What the loop does with a body that fits its segment is a run of the protocol's write and count steps:
   the same file and the same counters.
   */
  lemma {:induction false} BodyIsProtocolRun(world: World, c: Cell, i: nat, version: Version, file: Bytes,
                                             segments: seq<SegmentProgress>, body: seq<Bytes>)
    returns (events: seq<Event>, after: Cell)
    requires Reading(c, i, version, 0, file, segments) && i < |segments| && InFile(segments[i], |file|)
    requires segments[i].completed + |Flatten(body)| <= segments[i].Length() && segments[i].end < |world(version)|
    requires var from := segments[i].start + segments[i].completed;
             Flatten(body) == world(version)[from..from + |Flatten(body)|]
    ensures Leads(world, c, events, after)
    ensures Reading(after, i, version, 0, Overwritten(file, segments[i].start + segments[i].completed, Flatten(body)),
                    segments[i := segments[i].(completed := segments[i].completed + |Flatten(body)|)])
    decreases |body|
  {
    hide Reading, LeadsWith, Overwritten;
    var from: nat := segments[i].start + segments[i].completed;
    if body == [] {
      events, after := [], c;
      EmptyRun(world, None, c);
      NothingOverwritten(file, from);
      assert segments[i := segments[i].(completed := segments[i].completed + 0)] == segments;
    } else {
      var init, chunk := body[..|body| - 1], body[|body| - 1];
      var first := Flatten(init);
      LastChunk(world(version), from, body);
      var before, mid := BodyIsProtocolRun(world, c, i, version, file, segments, init);
      var counted := segments[i := segments[i].(completed := segments[i].completed + |first|)];
      var written := Overwritten(file, from, first);
      OverwrittenLength(file, from, first);
      after := ChunkIsTwoSteps(world, mid, i, version, written, counted, chunk);
      events := before + [SegmentWrite(i, |chunk|), SegmentCount(i, false)];
      RunThen(world, None, c, before, mid, [SegmentWrite(i, |chunk|), SegmentCount(i, false)], after);
      OverwrittenTwice(file, from, first, chunk);
      assert counted[i := counted[i].(completed := counted[i].completed + |chunk|)]
          == segments[i := segments[i].(completed := segments[i].completed + |Flatten(body)|)];
    }
  }
}
