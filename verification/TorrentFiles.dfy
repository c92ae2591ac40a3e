/** The files of a torrent that may be downloaded, and a user's selection among them. */
module TorrentFiles {
  import opened Basics
  import opened Sequences
  import opened Sorting

  const MAX_TORRENT_FILES := 10_000
  const MAX_TORRENT_FILE_SIZE: int64 := 0x800_0000_0000
  const MAX_TORRENT_TOTAL_SIZE: int64 := 0x1000_0000_0000

  /** A file of the metadata; `path` is its normalized safe path, None when it has none. */
  datatype Listed = Listed(length: int64, symlink: bool, padding: bool, path: Option<Bytes>)

  datatype File = File(index: int, path: Bytes, size: int64)

  function SumLengths(files: seq<Listed>): int {
    if files == [] then 0 else SumLengths(files[..|files| - 1]) + files[|files| - 1].length
  }

  function SumSizes(files: seq<File>): int {
    if files == [] then 0 else SumSizes(files[..|files| - 1]) + files[|files| - 1].size
  }

  predicate SafeFile(file: Listed) {
    0 <= file.length <= MAX_TORRENT_FILE_SIZE && !file.symlink && (!file.padding ==> file.path.Some?)
  }

  /** What must not occur twice: the path without case, of a file that is not padding. */
  function Identity(file: Listed): (identity: Option<Bytes>)
    ensures identity.Some? <==> !file.padding && file.path.Some?
  {
    if file.padding || file.path.None? then None else Some(ToLower(file.path.value))
  }

  ghost predicate PathsDiffer(files: seq<Listed>, n: nat)
    requires n <= |files|
  {
    forall i, j :: 0 <= i < j < n && Identity(files[i]).Some? ==> Identity(files[i]) != Identity(files[j])
  }

  /** The files that are not padding, numbered by their place in the metadata. */
  function Selectable(files: seq<Listed>): seq<File> {
    if files == [] then []
    else
      var last := files[|files| - 1];
      Selectable(files[..|files| - 1])
      + if last.padding || last.path.None? then [] else [File(|files| - 1, last.path.value, last.length)]
  }

  ghost predicate SafeTorrent(files: seq<Listed>) {
    && 0 < |files| <= MAX_TORRENT_FILES
    && (forall i :: 0 <= i < |files| ==> SafeFile(files[i]))
    && SumLengths(files) <= MAX_TORRENT_TOTAL_SIZE
    && PathsDiffer(files, |files|)
    && Selectable(files) != []
  }

  /** The set holds the identities of the first `n` files. */
  ghost predicate IdentitiesOf(files: seq<Listed>, n: nat, identities: set<Bytes>)
    requires n <= |files|
  {
    forall id :: id in identities <==> exists k :: 0 <= k < n && Identity(files[k]) == Some(id)
  }

  predicate SafeSoFar(files: seq<Listed>, n: nat)
    requires n <= |files|
  {
    forall i :: 0 <= i < n ==> SafeFile(files[i])
  }

  lemma NoIdentities(files: seq<Listed>)
    ensures SafeSoFar(files, 0) && PathsDiffer(files, 0) && IdentitiesOf(files, 0, {})
  {
  }

  lemma OneMoreIdentity(files: seq<Listed>, n: nat, identities: set<Bytes>)
    requires n < |files| && PathsDiffer(files, n) && IdentitiesOf(files, n, identities)
    ensures var identity := Identity(files[n]);
            if identity.None? then PathsDiffer(files, n + 1) && IdentitiesOf(files, n + 1, identities)
            else if identity.value in identities then !PathsDiffer(files, |files|)
            else PathsDiffer(files, n + 1) && IdentitiesOf(files, n + 1, identities + {identity.value})
  {
    hide Identity;
    var identity := Identity(files[n]);
    if identity.Some? && identity.value in identities {
      var k :| 0 <= k < n && Identity(files[k]) == identity;
    }
  }

  lemma OneMoreSafe(files: seq<Listed>, n: nat)
    requires n < |files| && SafeSoFar(files, n)
    ensures if SafeFile(files[n]) then SafeSoFar(files, n + 1) else !SafeTorrent(files)
  {
  }

  lemma RepeatedPath(files: seq<Listed>)
    requires !PathsDiffer(files, |files|)
    ensures !SafeTorrent(files)
  {
  }

  lemma AllSafe(files: seq<Listed>)
    requires 0 < |files| <= MAX_TORRENT_FILES && SafeSoFar(files, |files|) && PathsDiffer(files, |files|)
    requires SumLengths(files) <= MAX_TORRENT_TOTAL_SIZE
    ensures SafeTorrent(files) <==> Selectable(files) != []
  {
  }

  /** The selectable files are those that are not padding, with their numbers and sizes in the metadata, in order. */
  lemma {:induction false} SelectableAre(files: seq<Listed>)
    ensures forall i :: 0 <= i < |files| && !files[i].padding && files[i].path.Some? ==>
              File(i, files[i].path.value, files[i].length) in Selectable(files)
    ensures forall k :: 0 <= k < |Selectable(files)| ==>
              var file := Selectable(files)[k];
              && 0 <= file.index < |files| && !files[file.index].padding
              && files[file.index].path == Some(file.path) && file.size == files[file.index].length
    ensures forall j, k :: 0 <= j < k < |Selectable(files)| ==>
              Selectable(files)[j].index < Selectable(files)[k].index
  {
    if files != [] {
      var front := files[..|files| - 1];
      SelectableAre(front);
      var last := files[|files| - 1];
      var before := Selectable(front);
      assert forall i :: 0 <= i < |front| ==> front[i] == files[i];
      assert forall k :: 0 <= k < |before| ==> Selectable(files)[k] == before[k];
      if !last.padding && last.path.Some? {
        assert Selectable(files)[|before|] == File(|front|, last.path.value, last.length);
      }
    }
  }

  lemma {:induction false} SomethingIsSelectable(files: seq<Listed>)
    requires forall i :: 0 <= i < |files| ==> SafeFile(files[i])
    ensures Selectable(files) != [] <==> exists i :: 0 <= i < |files| && !files[i].padding
  {
    if files != [] {
      var front := files[..|files| - 1];
      SomethingIsSelectable(front);
      assert !files[|files| - 1].padding ==> files[|files| - 1].path.Some?;
      if i :| 0 <= i < |files| && !files[i].padding && i < |files| - 1 {
        assert !front[i].padding;
      }
      if i :| 0 <= i < |front| && !front[i].padding {
        assert !files[i].padding;
      }
    }
  }

  /** What makes a torrent safe, file by file. */
  lemma SafeTorrentsExactly(files: seq<Listed>)
    ensures SafeTorrent(files)
            <==> && 0 < |files| <= 10_000 && SumLengths(files) <= 17_592_186_044_416
                 && (forall i :: 0 <= i < |files| ==>
                       !files[i].symlink && 0 <= files[i].length <= 8_796_093_022_208
                       && (files[i].padding || files[i].path.Some?))
                 && (exists i :: 0 <= i < |files| && !files[i].padding)
                 && (forall i, j :: 0 <= i < j < |files| && !files[i].padding && !files[j].padding ==>
                       ToLower(files[i].path.value) != ToLower(files[j].path.value))
  {
    if forall i :: 0 <= i < |files| ==> SafeFile(files[i]) {
      SomethingIsSelectable(files);
    }
  }

  /** Accepts exactly the safe torrents, adding the lengths in 64 bits without overflow. */
  method SafeFiles(listed: seq<Listed>) returns (ok: bool, files: seq<File>, total: int64)
    ensures ok <==> SafeTorrent(listed)
    ensures ok ==> files == Selectable(listed) && total == SumLengths(listed)
  {
    files, total := [], 0;
    if |listed| == 0 || |listed| > MAX_TORRENT_FILES {
      return false, files, total;
    }
    hide SumLengths, Selectable, Identity, PathsDiffer, IdentitiesOf, SafeSoFar, SafeTorrent;
    var identities: set<Bytes> := {};
    NothingListed(listed);
    NoIdentities(listed);
    for i := 0 to |listed|
      invariant SafeSoFar(listed, i)
      invariant total == SumLengths(listed[..i]) && 0 <= total <= MAX_TORRENT_TOTAL_SIZE
      invariant files == Selectable(listed[..i])
      invariant PathsDiffer(listed, i)
      invariant IdentitiesOf(listed, i, identities)
    {
      var file := listed[i];
      OneMoreListed(listed, i);
      OneMoreSafe(listed, i);
      OneMoreIdentity(listed, i, identities);
      if file.length < 0 || file.length > MAX_TORRENT_FILE_SIZE || file.symlink {
        return false, files, total;
      }
      if file.length > MAX_TORRENT_TOTAL_SIZE - total {
        TooLong(listed, i + 1);
        return false, files, total;
      }
      total := total + file.length;
      if file.padding {
        continue;
      }
      if file.path.None? {
        return false, files, total;
      }
      var identity := Identity(file).value;
      if identity in identities {
        RepeatedPath(listed);
        return false, files, total;
      }
      identities := identities + {identity};
      files := files + [File(i, file.path.value, file.length)];
    }
    assert listed[..|listed|] == listed;
    AllSafe(listed);
    ok := files != [];
  }

  lemma NothingListed(listed: seq<Listed>)
    ensures SumLengths(listed[..0]) == 0 && Selectable(listed[..0]) == []
  {
  }

  lemma OneMoreListed(listed: seq<Listed>, i: nat)
    requires i < |listed|
    ensures SumLengths(listed[..i + 1]) == SumLengths(listed[..i]) + listed[i].length
    ensures Selectable(listed[..i + 1])
            == Selectable(listed[..i])
               + if listed[i].padding || listed[i].path.None? then []
                 else [File(i, listed[i].path.value, listed[i].length)]
  {
    assert listed[..i + 1][..i] == listed[..i];
  }

  /** A prefix that is too long makes the whole too long, because lengths are not negative. */
  lemma {:induction false} TooLong(files: seq<Listed>, n: nat)
    requires n <= |files| && MAX_TORRENT_TOTAL_SIZE < SumLengths(files[..n])
    ensures !SafeTorrent(files)
  {
    if forall i :: 0 <= i < |files| ==> SafeFile(files[i]) {
      PrefixSum(files, n);
    }
  }

  lemma {:induction false} PrefixSum(files: seq<Listed>, n: nat)
    requires n <= |files| && forall i :: 0 <= i < |files| ==> SafeFile(files[i])
    ensures SumLengths(files[..n]) <= SumLengths(files)
  {
    if n == |files| {
      assert files[..n] == files;
    } else {
      var init := files[..|files| - 1];
      PrefixSum(init, n);
      assert init[..n] == files[..n];
    }
  }

  // ---------------------------------------------------------------------
  // The selection

  /** The size of the last file with this index; 0 if there is none. */
  function SizeOf(files: seq<File>, index: int): int {
    if files == [] then 0
    else if files[|files| - 1].index == index then files[|files| - 1].size
    else SizeOf(files[..|files| - 1], index)
  }

  predicate HasIndex(files: seq<File>, index: int) {
    exists i :: 0 <= i < |files| && files[i].index == index
  }

  function SelectedSize(files: seq<File>, indexes: seq<int>): int {
    if indexes == [] then 0 else SelectedSize(files, indexes[..|indexes| - 1]) + SizeOf(files, indexes[|indexes| - 1])
  }

  predicate IntLe(a: int, b: int) {
    a <= b
  }

  lemma {:induction false} SelectedAppend(files: seq<File>, a: seq<int>, b: seq<int>)
    ensures SelectedSize(files, a + b) == SelectedSize(files, a) + SelectedSize(files, b)
  {
    if b == [] {
      assert a + b == a;
    } else {
      SelectedAppend(files, a, b[..|b| - 1]);
      assert (a + b)[..|a + b| - 1] == a + b[..|b| - 1];
    }
  }

  /** Without the last file, everything selected is as large, except what the last file provides. */
  lemma {:induction false} SelectedWithoutLast(files: seq<File>, indexes: seq<int>)
    requires files != [] && NoDuplicates(indexes)
    ensures var init, last := files[..|files| - 1], files[|files| - 1];
            SelectedSize(files, indexes)
            == SelectedSize(init, Filter(indexes, i => i != last.index))
               + if last.index in indexes then last.size else 0
    decreases |indexes|
  {
    if indexes != [] {
      var init, last := files[..|files| - 1], files[|files| - 1];
      var front, index := indexes[..|indexes| - 1], indexes[|indexes| - 1];
      assert indexes == front + [index];
      NoDuplicatesSplit(indexes, |indexes| - 1);
      assert index in indexes[|indexes| - 1..];
      SelectedWithoutLast(files, front);
      FilterAppend(front, [index], i => i != last.index);
      SelectedAppend(init, Filter(front, i => i != last.index), Filter([index], i => i != last.index));
      assert index == last.index ==> last.index !in front;
      SelectedOne(init, index);
    }
  }

  lemma SelectedOne(files: seq<File>, index: int)
    ensures SelectedSize(files, [index]) == SizeOf(files, index) && SelectedSize(files, []) == 0
  {
    assert [index][..0] == [];
  }

  /** Different indexes select different files, so a selection is never larger than the torrent. */
  lemma {:induction false} SelectionFits(files: seq<File>, indexes: seq<int>)
    requires NoDuplicates(indexes) && forall i :: 0 <= i < |files| ==> 0 <= files[i].size
    ensures 0 <= SelectedSize(files, indexes) <= SumSizes(files)
    decreases |files|
  {
    if files == [] {
      NothingSelected(indexes);
    } else {
      var rest := Filter(indexes, i => i != files[|files| - 1].index);
      FilterNoDuplicates(indexes, i => i != files[|files| - 1].index);
      SelectedWithoutLast(files, indexes);
      SelectionFits(files[..|files| - 1], rest);
    }
  }

  lemma {:induction false} NothingSelected(indexes: seq<int>)
    ensures SelectedSize([], indexes) == 0
  {
    if indexes != [] {
      NothingSelected(indexes[..|indexes| - 1]);
    }
  }

  /** The files of a safe torrent together are no larger than the torrent. */
  lemma {:induction false} SelectableFits(listed: seq<Listed>)
    requires forall i :: 0 <= i < |listed| ==> 0 <= listed[i].length
    ensures 0 <= SumSizes(Selectable(listed)) <= SumLengths(listed)
    ensures forall i :: 0 <= i < |Selectable(listed)| ==> 0 <= Selectable(listed)[i].size
  {
    if listed != [] {
      var init, last := listed[..|listed| - 1], listed[|listed| - 1];
      SelectableFits(init);
      if last.padding || last.path.None? {
        assert Selectable(init) + [] == Selectable(init);
      } else {
        SumAppend(Selectable(init), File(|init|, last.path.value, last.length));
      }
    }
  }

  lemma SumAppend(files: seq<File>, file: File)
    ensures SumSizes(files + [file]) == SumSizes(files) + file.size
  {
    assert (files + [file])[..|files|] == files;
  }

  /**
   Accepts exactly a non-empty selection of different existing files, and returns it sorted. Its size is
   added up in 64 bits, and is exact whenever the files together fit a machine integer.
   */
  method ValidateSelection(files: seq<File>, indexes: seq<int>) returns (ok: bool, selected: seq<int>, total: int64)
    ensures ok <==>
            && 0 < |indexes| <= |files| && NoDuplicates(indexes)
            && forall i :: 0 <= i < |indexes| ==> HasIndex(files, indexes[i])
    ensures ok ==> Sorted(selected, IntLe) && multiset(selected) == multiset(indexes)
    ensures ok ==> total == Wrap64(SelectedSize(files, indexes))
    ensures ok && (forall i :: 0 <= i < |files| ==> 0 <= files[i].size) && SumSizes(files) <= INT64_MAX ==>
              total == SelectedSize(files, indexes) && 0 <= total <= SumSizes(files)
  {
    hide Wrap64, HasIndex;
    selected, total := [], 0;
    WrapIsExact(0);
    if |indexes| == 0 || |indexes| > |files| {
      return false, selected, total;
    }
    var byIndex := BuildIndex(files);
    var seen: set<int> := {};
    for i := 0 to |indexes|
      invariant selected == indexes[..i] && NoDuplicates(selected)
      invariant forall index :: index in seen <==> index in selected
      invariant forall k :: 0 <= k < i ==> HasIndex(files, indexes[k])
      invariant total == Wrap64(SelectedSize(files, selected))
    {
      var index := indexes[i];
      if index !in byIndex {
        return false, selected, total;
      }
      if index in seen {
        var k :| 0 <= k < i && indexes[..i][k] == index;
        assert !NoDuplicates(indexes);
        return false, selected, total;
      }
      assert indexes[..i + 1] == indexes[..i] + [index];
      assert (selected + [index])[..i] == selected;
      NoDuplicatesConcat(selected, [index]);
      WrapSum(SelectedSize(files, selected), byIndex[index].size);
      seen := seen + {index};
      selected := selected + [index];
      total := Wrap64(total + byIndex[index].size);
    }
    assert indexes[..|indexes|] == indexes;
    if forall i :: 0 <= i < |files| ==> 0 <= files[i].size {
      SelectionFits(files, indexes);
      WrapIsExact(SelectedSize(files, indexes));
    }
    SortSorts(selected, IntLe);
    selected := Sort(selected, IntLe);
    ok := true;
  }

  method BuildIndex(files: seq<File>) returns (byIndex: map<int, File>)
    ensures forall index :: index in byIndex <==> HasIndex(files, index)
    ensures forall index :: index in byIndex ==> byIndex[index].size == SizeOf(files, index)
  {
    byIndex := map[];
    for i := 0 to |files|
      invariant forall index :: index in byIndex <==> HasIndex(files[..i], index)
      invariant forall index :: index in byIndex ==> byIndex[index].size == SizeOf(files[..i], index)
    {
      byIndex := byIndex[files[i].index := files[i]];
      assert files[..i + 1] == files[..i] + [files[i]];
      assert files[..i + 1][..i] == files[..i];
      forall index ensures HasIndex(files[..i + 1], index) <==> HasIndex(files[..i], index) || index == files[i].index {
        if HasIndex(files[..i], index) {
          var k :| 0 <= k < i && files[..i][k].index == index;
          assert files[..i + 1][k].index == index;
        }
        assert files[..i + 1][i] == files[i];
      }
    }
    assert files[..|files|] == files;
  }

  /** Any selection of different files of a safe torrent stays within the size limit. */
  lemma SelectionOfSafeTorrent(listed: seq<Listed>, indexes: seq<int>)
    requires SafeTorrent(listed) && NoDuplicates(indexes)
    ensures 0 <= SelectedSize(Selectable(listed), indexes) <= SumLengths(listed) <= MAX_TORRENT_TOTAL_SIZE
  {
    SelectableFits(listed);
    SelectionFits(Selectable(listed), indexes);
  }
}
