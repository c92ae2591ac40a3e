/**
 Segmented-transfer checkpoints: the layout a checkpoint must have, its
 validation, and the layout a fresh transfer starts from.
 */
module Checkpoints {
  import opened Basics

  const TRANSFER_CHECKPOINT_VERSION := 1
  const MAX_SEGMENTS := 64
  const DEFAULT_SEGMENTED_TRANSFER_MIN_SIZE := 0x10_0000
  const SEGMENTED_CONNECTION_COUNT := 4

  datatype SegmentProgress = SegmentProgress(start: int, end: int, completed: int) {
    function Length(): int {
      end - start + 1
    }
  }

  datatype TransferCheckpoint = TransferCheckpoint(version: int, total: int, segments: seq<SegmentProgress>)

  /** The segments cover `[from, to)` from left to right, without gap or overlap. */
  predicate Tiles(segments: seq<SegmentProgress>, from: int, to: int) {
    if segments == [] then from == to
    else
      && segments[0].start == from
      && from <= segments[0].end < to
      && Tiles(segments[1..], segments[0].end + 1, to)
  }

  predicate ProgressInRange(segments: seq<SegmentProgress>) {
    forall i :: 0 <= i < |segments| ==> 0 <= segments[i].completed <= segments[i].Length()
  }

  /** A checkpoint the engine may act on; a non-positive `expectedTotal` means the size is not known. */
  predicate ValidCheckpoint(checkpoint: TransferCheckpoint, expectedTotal: int) {
    && checkpoint.version == TRANSFER_CHECKPOINT_VERSION
    && 0 < checkpoint.total
    && (0 < expectedTotal ==> checkpoint.total == expectedTotal)
    && 0 < |checkpoint.segments| <= MAX_SEGMENTS
    && Tiles(checkpoint.segments, 0, checkpoint.total)
    && ProgressInRange(checkpoint.segments)
  }

  function SumCompleted(segments: seq<SegmentProgress>): int {
    if segments == [] then 0 else segments[0].completed + SumCompleted(segments[1..])
  }

  function Downloaded(checkpoint: TransferCheckpoint): int {
    SumCompleted(checkpoint.segments)
  }

  /** Every number of the checkpoint is a machine integer, as decoding guarantees. */
  predicate MachineCheckpoint(checkpoint: TransferCheckpoint) {
    && INT64_MIN <= checkpoint.total <= INT64_MAX
    && (forall i :: 0 <= i < |checkpoint.segments| ==> MachineSegment(checkpoint.segments[i]))
  }

  predicate MachineSegment(segment: SegmentProgress) {
    && INT64_MIN <= segment.start <= INT64_MAX
    && INT64_MIN <= segment.end <= INT64_MAX
    && INT64_MIN <= segment.completed <= INT64_MAX
  }

  // ---------------------------------------------------------------------
  // Sums over a tiling

  lemma {:induction false} SumSplits(segments: seq<SegmentProgress>, k: nat)
    requires k <= |segments|
    ensures SumCompleted(segments) == SumCompleted(segments[..k]) + SumCompleted(segments[k..])
  {
    if k == 0 {
      assert segments[..0] == [] && segments[0..] == segments;
    } else {
      SumSplits(segments[1..], k - 1);
      assert segments[..k][1..] == segments[1..][..k - 1];
      assert segments[k..] == segments[1..][k - 1..];
    }
  }

  lemma {:induction false} TilesSplit(segments: seq<SegmentProgress>, from: int, to: int, k: nat)
    requires Tiles(segments, from, to) && k < |segments|
    ensures from <= segments[k].start <= segments[k].end < to
    ensures Tiles(segments[..k], from, segments[k].start)
    ensures Tiles(segments[k..], segments[k].start, to)
  {
    if k == 0 {
      assert segments[0..] == segments;
    } else {
      TilesSplit(segments[1..], segments[0].end + 1, to, k - 1);
      assert segments[..k][1..] == segments[1..][..k - 1];
      assert segments[k..] == segments[1..][k - 1..];
    }
  }

  /** Completed bytes never exceed the tiled range, and fill it only when every segment is complete. */
  lemma {:induction false} SumWithinTiling(segments: seq<SegmentProgress>, from: int, to: int)
    requires Tiles(segments, from, to) && ProgressInRange(segments)
    ensures 0 <= SumCompleted(segments) <= to - from
    ensures SumCompleted(segments) == to - from <==>
            forall i :: 0 <= i < |segments| ==> segments[i].completed == segments[i].Length()
  {
    if segments != [] {
      var rest := segments[1..];
      assert forall i :: 0 <= i < |rest| ==> rest[i] == segments[i + 1];
      SumWithinTiling(rest, segments[0].end + 1, to);
      if SumCompleted(segments) == to - from {
        forall i | 0 <= i < |segments| ensures segments[i].completed == segments[i].Length() {
          if i > 0 {
            assert segments[i] == rest[i - 1];
          }
        }
      }
    }
  }

  /**
   A validated checkpoint reports between nothing and everything, and everything only when each segment is complete.
   */
  lemma DownloadedBounds(checkpoint: TransferCheckpoint, expectedTotal: int)
    requires ValidCheckpoint(checkpoint, expectedTotal)
    ensures 0 <= Downloaded(checkpoint) <= checkpoint.total
    ensures Downloaded(checkpoint) == checkpoint.total <==>
            forall i :: 0 <= i < |checkpoint.segments| ==>
                          checkpoint.segments[i].completed == checkpoint.segments[i].Length()
  {
    SumWithinTiling(checkpoint.segments, 0, checkpoint.total);
  }

  /** Every byte position belongs to a segment of the tiling. */
  lemma {:induction false} SegmentAt(segments: seq<SegmentProgress>, from: int, to: int, position: int)
    returns (i: nat)
    requires Tiles(segments, from, to) && from <= position < to
    ensures i < |segments| && segments[i].start <= position <= segments[i].end
  {
    if position <= segments[0].end {
      i := 0;
    } else {
      var j := SegmentAt(segments[1..], segments[0].end + 1, to, position);
      i := j + 1;
    }
  }

  /** Two different segments of a tiling share no byte. */
  lemma SegmentsDisjoint(segments: seq<SegmentProgress>, from: int, to: int, i: nat, j: nat)
    requires Tiles(segments, from, to) && i < j < |segments|
    ensures segments[i].end < segments[j].start
  {
    TilesSplit(segments, from, to, i);
    TilesSplit(segments[i..], segments[i].start, to, 0);
    var rest := segments[i..][1..];
    assert rest[j - i - 1] == segments[j];
    TilesSplit(rest, segments[i].end + 1, to, j - i - 1);
  }

  /** Counting `count` more bytes in one segment keeps the layout and adds `count` to the total. */
  lemma {:induction false} AdvanceSegment(segments: seq<SegmentProgress>, from: int, to: int, i: nat, completed: int)
    requires Tiles(segments, from, to) && ProgressInRange(segments) && i < |segments|
    requires 0 <= completed <= segments[i].Length()
    ensures var advanced := segments[i := segments[i].(completed := completed)];
            && Tiles(advanced, from, to) && ProgressInRange(advanced)
            && SumCompleted(advanced) == SumCompleted(segments) + completed - segments[i].completed
  {
    var advanced := segments[i := segments[i].(completed := completed)];
    if i == 0 {
      assert advanced[1..] == segments[1..];
    } else {
      AdvanceSegment(segments[1..], segments[0].end + 1, to, i - 1, completed);
      assert advanced[1..] == segments[1..][i - 1 := segments[i].(completed := completed)];
    }
  }

  // ---------------------------------------------------------------------
  // Validation

  lemma {:induction false} TilesExtend(segments: seq<SegmentProgress>, from: int, to: int, next: SegmentProgress)
    requires Tiles(segments, from, to) && next.start == to <= next.end
    ensures Tiles(segments + [next], from, next.end + 1)
  {
    if segments == [] {
      assert (segments + [next])[1..] == [];
    } else {
      TilesExtend(segments[1..], segments[0].end + 1, to, next);
      assert (segments + [next])[1..] == segments[1..] + [next];
      TilesSplit(segments, from, to, 0);
    }
  }

  /**
   Validates a decoded checkpoint. Every intermediate value is a machine
   integer, so no overflow can make a broken layout look valid.
   */
  method ValidateTransferCheckpoint(checkpoint: Option<TransferCheckpoint>, expectedTotal: int64)
    returns (downloaded: Option<int64>)
    requires checkpoint.Some? ==> MachineCheckpoint(checkpoint.value)
    ensures downloaded.Some? <==> checkpoint.Some? && ValidCheckpoint(checkpoint.value, expectedTotal)
    ensures downloaded.Some? ==> downloaded.value == Downloaded(checkpoint.value)
  {
    if checkpoint.None? || checkpoint.value.version != TRANSFER_CHECKPOINT_VERSION || checkpoint.value.total <= 0 {
      return None;
    }
    var total: int64 := checkpoint.value.total;
    var segments := checkpoint.value.segments;
    if expectedTotal > 0 && total != expectedTotal {
      return None;
    }
    if |segments| == 0 || |segments| > MAX_SEGMENTS {
      return None;
    }
    var nextStart: int64 := 0;
    var sum: int64 := 0;
    assert segments[..0] == [];
    for i := 0 to |segments|
      invariant 0 <= nextStart <= total
      invariant Tiles(segments[..i], 0, nextStart)
      invariant ProgressInRange(segments[..i])
      invariant sum == SumCompleted(segments[..i]) && 0 <= sum <= nextStart
      invariant Tiles(segments, 0, total) ==> Tiles(segments[i..], nextStart, total)
    {
      var segment := segments[i];
      if segment.start != nextStart || segment.end < segment.start || segment.end >= total {
        assert segments[i..][0] == segment;
        return None;
      }
      var length: int64 := segment.end - segment.start + 1;
      if segment.completed < 0 || segment.completed > length {
        return None;
      }
      assert segments[..i + 1] == segments[..i] + [segment];
      TilesExtend(segments[..i], 0, nextStart, segment);
      SumSplits(segments[..i + 1], i);
      assert segments[..i + 1][..i] == segments[..i] && segments[..i + 1][i..] == [segment];
      assert segments[i..][1..] == segments[i + 1..];
      sum := sum + segment.completed;
      nextStart := segment.end + 1;
    }
    assert segments[..|segments|] == segments;
    if nextStart != total || sum > total {
      assert segments[|segments|..] == [];
      return None;
    }
    return Some(sum);
  }

  // ---------------------------------------------------------------------
  // A fresh layout

  /**
   Where segment `index` starts when `total` bytes are dealt to `count` connections, the first ones one byte longer.
   */
  function SegmentStart(total: int, count: int, index: int): int
    requires 0 < count
  {
    total / count * index + Min(index, total % count)
  }

  function FreshSegment(total: int, count: int, index: int): SegmentProgress
    requires 0 < count
  {
    SegmentProgress(SegmentStart(total, count, index), SegmentStart(total, count, index + 1) - 1, 0)
  }

  function FreshCheckpoint(total: int, count: nat): TransferCheckpoint
    requires 0 < count
  {
    TransferCheckpoint(TRANSFER_CHECKPOINT_VERSION, total, seq(count, i => FreshSegment(total, count, i)))
  }

  lemma SegmentStartStep(total: int, count: int, index: int)
    requires 0 < count <= total && 0 <= index < count
    ensures SegmentStart(total, count, 0) == 0
    ensures SegmentStart(total, count, count) == total
    ensures SegmentStart(total, count, index + 1) - SegmentStart(total, count, index)
            == total / count + (if index < total % count then 1 else 0)
    ensures 1 <= total / count
  {
    assert total / count * (index + 1) == total / count * index + total / count;
    assert total / count * count + total % count == total;
  }

  lemma {:induction false} FreshTiles(total: int, count: nat, from: nat)
    requires 0 < count <= total && from <= count
    ensures Tiles(FreshCheckpoint(total, count).segments[from..], SegmentStart(total, count, from), total)
    ensures SumCompleted(FreshCheckpoint(total, count).segments[from..]) == 0
    decreases count - from
  {
    var segments := FreshCheckpoint(total, count).segments;
    if from == count {
      SegmentStartStep(total, count, 0);
      assert segments[from..] == [];
    } else {
      FreshTiles(total, count, from + 1);
      SegmentStartStep(total, count, from);
      assert segments[from..][1..] == segments[from + 1..];
      StartBound(total, count, from + 1);
    }
  }

  lemma StartBound(total: int, count: int, index: int)
    requires 0 < count <= total && 0 <= index <= count
    ensures 0 <= SegmentStart(total, count, index) <= total
  {
    assert total / count * count + total % count == total;
    assert 0 <= total / count * index <= total / count * count by {
      MulMonotone(total / count, index, count);
    }
  }

  lemma MulMonotone(a: int, b: int, c: int)
    requires 0 <= a && 0 <= b <= c
    ensures 0 <= a * b <= a * c
  {
  }

  /** A fresh layout tiles the file, starts from nothing, and deals lengths that differ by at most one. */
  lemma FreshCheckpointValid(total: int, count: nat)
    requires 0 < count <= MAX_SEGMENTS && count <= total
    ensures ValidCheckpoint(FreshCheckpoint(total, count), total)
    ensures Downloaded(FreshCheckpoint(total, count)) == 0
    ensures var segments := FreshCheckpoint(total, count).segments;
            && |segments| == count
            && forall i, j :: 0 <= i < |segments| && 0 <= j < |segments| ==>
                                segments[i].Length() <= segments[j].Length() + 1
  {
    var segments := FreshCheckpoint(total, count).segments;
    FreshTiles(total, count, 0);
    SegmentStartStep(total, count, 0);
    assert segments[0..] == segments;
    forall i | 0 <= i < |segments|
      ensures segments[i].Length() == total / count + (if i < total % count then 1 else 0)
    {
      SegmentStartStep(total, count, i);
    }
  }

  /** Builds the fresh layout; lengths and starts stay machine integers. */
  method NewTransferCheckpoint(total: int64, connectionCount: int64)
    returns (checkpoint: TransferCheckpoint)
    requires 0 < connectionCount <= MAX_SEGMENTS && connectionCount <= total
    ensures checkpoint == FreshCheckpoint(total, connectionCount)
    ensures ValidCheckpoint(checkpoint, total) && Downloaded(checkpoint) == 0
    ensures MachineCheckpoint(checkpoint)
  {
    hide SegmentStart, ValidCheckpoint, Downloaded;
    var baseLength: int64 := total / connectionCount;
    var remainder: int64 := total % connectionCount;
    var start: int64 := 0;
    var segments: seq<SegmentProgress> := [];
    var index: int64 := 0;
    SegmentStartStep(total, connectionCount, 0);
    while index < connectionCount
      invariant 0 <= index <= connectionCount
      invariant start == SegmentStart(total, connectionCount, index)
      invariant segments == seq(index, i => FreshSegment(total, connectionCount, i))
      invariant forall i :: 0 <= i < |segments| ==> MachineSegment(segments[i])
    {
      SegmentStartStep(total, connectionCount, index);
      StartBound(total, connectionCount, index);
      StartBound(total, connectionCount, index + 1);
      var length: int64 := baseLength;
      if index < remainder {
        length := length + 1;
      }
      segments := segments + [SegmentProgress(start, start + length - 1, 0)];
      start := start + length;
      index := index + 1;
    }
    FreshCheckpointValid(total, connectionCount);
    checkpoint := TransferCheckpoint(TRANSFER_CHECKPOINT_VERSION, total, segments);
  }
}
