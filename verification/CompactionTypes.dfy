// Manifest files, groups and batches of the graph compactor (retikon_core/compaction/types.py).

module CompactionTypes {
  import opened Sequences

  // Path segments below the storage scheme; "/" never occurs inside a segment.
  type Uri = seq<string>

  datatype ManifestFile = ManifestFile(uri: Uri, rows: int, bytesWritten: int)

  datatype ManifestInfo = ManifestInfo(runId: string, completedAt: int, files: seq<ManifestFile>)

  datatype CompactionGroup = CompactionGroup(
    entityType: string,
    isEdge: bool,
    runId: string,
    files: map<string, ManifestFile>)
  {
    function Bytes(kind: string): int {
      if kind in files then files[kind].bytesWritten else 0
    }

    function Rows(kind: string): int {
      if kind in files then files[kind].rows else 0
    }
  }

  datatype CompactionBatch = CompactionBatch(
    entityType: string,
    isEdge: bool,
    fileKinds: seq<string>,
    groups: seq<CompactionGroup>)
  {
    method BytesByKind() returns (totals: map<string, int>)
      ensures totals.Keys == set k | k in fileKinds
      ensures forall k | k in fileKinds :: totals[k] == KindBytes(groups, k) == Sum(SizesOf(groups, k))
    {
      totals := map k | k in fileKinds :: 0;
      for i := 0 to |groups|
        invariant totals.Keys == set k | k in fileKinds
        invariant forall k | k in fileKinds :: totals[k] == BytesIn(groups, k, 0, i)
      {
        totals := map k | k in totals :: totals[k] + groups[i].Bytes(k);
      }
      forall k | k in fileKinds
        ensures KindBytes(groups, k) == Sum(SizesOf(groups, k))
      {
        KindBytesIsSum(groups, k);
      }
    }

    method RowsByKind() returns (totals: map<string, int>)
      ensures totals.Keys == set k | k in fileKinds
      ensures forall k | k in fileKinds :: totals[k] == KindRows(groups, k) == Sum(CountsOf(groups, k))
    {
      totals := map k | k in fileKinds :: 0;
      for i := 0 to |groups|
        invariant totals.Keys == set k | k in fileKinds
        invariant forall k | k in fileKinds :: totals[k] == RowsIn(groups, k, i)
      {
        totals := map k | k in totals :: totals[k] + groups[i].Rows(k);
      }
      forall k | k in fileKinds
        ensures KindRows(groups, k) == Sum(CountsOf(groups, k))
      {
        KindRowsIsSum(groups, k);
      }
    }
  }

  // Bytes of one kind in the groups [i, j).
  function BytesIn(groups: seq<CompactionGroup>, kind: string, i: nat, j: nat): int
    requires j <= |groups|
  {
    if j <= i then 0 else BytesIn(groups, kind, i, j - 1) + groups[j - 1].Bytes(kind)
  }

  function KindBytes(groups: seq<CompactionGroup>, kind: string): int {
    BytesIn(groups, kind, 0, |groups|)
  }

  function RowsIn(groups: seq<CompactionGroup>, kind: string, j: nat): int
    requires j <= |groups|
  {
    if j == 0 then 0 else RowsIn(groups, kind, j - 1) + groups[j - 1].Rows(kind)
  }

  function KindRows(groups: seq<CompactionGroup>, kind: string): int {
    RowsIn(groups, kind, |groups|)
  }

  // What the manifests say of the files of a kind, group by group; a group without one adds nothing.
  function SizesOf(groups: seq<CompactionGroup>, kind: string): (s: seq<int>)
    ensures |s| == |groups|
  {
    seq(|groups|, i requires 0 <= i < |groups| =>
      if kind in groups[i].files then groups[i].files[kind].bytesWritten else 0)
  }

  function CountsOf(groups: seq<CompactionGroup>, kind: string): (s: seq<int>)
    ensures |s| == |groups|
  {
    seq(|groups|, i requires 0 <= i < |groups| => if kind in groups[i].files then groups[i].files[kind].rows else 0)
  }

  lemma {:induction false} BytesInIsSum(groups: seq<CompactionGroup>, kind: string, j: nat)
    requires j <= |groups|
    ensures BytesIn(groups, kind, 0, j) == Sum(SizesOf(groups, kind)[..j])
  {
    if j > 0 {
      BytesInIsSum(groups, kind, j - 1);
      assert SizesOf(groups, kind)[..j][..j - 1] == SizesOf(groups, kind)[..j - 1];
    }
  }

  lemma {:induction false} RowsInIsSum(groups: seq<CompactionGroup>, kind: string, j: nat)
    requires j <= |groups|
    ensures RowsIn(groups, kind, j) == Sum(CountsOf(groups, kind)[..j])
  {
    if j > 0 {
      RowsInIsSum(groups, kind, j - 1);
      assert CountsOf(groups, kind)[..j][..j - 1] == CountsOf(groups, kind)[..j - 1];
    }
  }

  lemma KindBytesIsSum(groups: seq<CompactionGroup>, kind: string)
    ensures KindBytes(groups, kind) == Sum(SizesOf(groups, kind))
  {
    BytesInIsSum(groups, kind, |groups|);
    assert SizesOf(groups, kind)[..|groups|] == SizesOf(groups, kind);
  }

  lemma KindRowsIsSum(groups: seq<CompactionGroup>, kind: string)
    ensures KindRows(groups, kind) == Sum(CountsOf(groups, kind))
  {
    RowsInIsSum(groups, kind, |groups|);
    assert CountsOf(groups, kind)[..|groups|] == CountsOf(groups, kind);
  }

  lemma {:induction false} BytesInSlice(groups: seq<CompactionGroup>, kind: string, i: nat, j: nat, k: nat)
    requires i <= k <= j <= |groups|
    ensures BytesIn(groups[i..j], kind, 0, k - i) == BytesIn(groups, kind, i, k)
  {
    if i < k {
      BytesInSlice(groups, kind, i, j, k - 1);
    }
  }

  lemma {:induction false} BytesInSplit(groups: seq<CompactionGroup>, kind: string, i: nat, k: nat, j: nat)
    requires i <= k <= j <= |groups|
    ensures BytesIn(groups, kind, i, j) == BytesIn(groups, kind, i, k) + BytesIn(groups, kind, k, j)
  {
    if k < j {
      BytesInSplit(groups, kind, i, k, j - 1);
    }
  }
}
