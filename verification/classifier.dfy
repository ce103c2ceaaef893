/** Which inbound requests are file downloads. The decision looks at the URL
    path alone and is taken before the body is read. */
module Classifier {
  import opened Wrappers
  import opened Http

  const GenesisPath: Bytes := Ascii("/genesis.tar.bz2")
  const SnapshotPrefix: Bytes := Ascii("/snapshot-")
  const IncrementalSnapshotPrefix: Bytes := Ascii("/incremental-snapshot")

  datatype DownloadKind = Genesis | Snapshot | IncrementalSnapshot

  /** The three download families are pairwise disjoint. */
  lemma FamiliesDisjoint(path: Bytes)
    ensures !(path == GenesisPath && SnapshotPrefix <= path)
    ensures !(path == GenesisPath && IncrementalSnapshotPrefix <= path)
    ensures !(SnapshotPrefix <= path && IncrementalSnapshotPrefix <= path)
  {
    assert GenesisPath[1] == Ascii("g")[0];
    assert SnapshotPrefix[1] == Ascii("s")[0];
    assert IncrementalSnapshotPrefix[1] == Ascii("i")[0];
  }

  /** The download family of a path, or `None` for every other path. Because the
      families are disjoint, each family is recognised by its own test alone. */
  function KindOf(path: Bytes): (kind: Option<DownloadKind>)
    ensures kind == Some(Genesis) <==> path == GenesisPath
    ensures kind == Some(Snapshot) <==> SnapshotPrefix <= path
    ensures kind == Some(IncrementalSnapshot) <==> IncrementalSnapshotPrefix <= path
  {
    FamiliesDisjoint(path);
    if path == GenesisPath then Some(Genesis)
    else if SnapshotPrefix <= path then Some(Snapshot)
    else if IncrementalSnapshotPrefix <= path then Some(IncrementalSnapshot)
    else None
  }

  /** The test `logRequestAndForward` applies first to every request. */
  function IsFileDownload(path: Bytes): (download: bool)
    ensures download <==> KindOf(path).Some?
  {
    path == GenesisPath || SnapshotPrefix <= path || IncrementalSnapshotPrefix <= path
  }

  /** The test `handleFileDownload` applies to pick POST over GET. */
  function IsSnapshotPath(path: Bytes): (snapshot: bool)
    ensures snapshot <==> KindOf(path) == Some(Snapshot) || KindOf(path) == Some(IncrementalSnapshot)
  {
    SnapshotPrefix <= path || IncrementalSnapshotPrefix <= path
  }

  /** The download test and the family function agree, and within the downloads
      the snapshot test separates the two snapshot families from the genesis file. */
  lemma ClassificationAgrees(path: Bytes)
    ensures IsFileDownload(path) <==> KindOf(path).Some?
    ensures IsSnapshotPath(path) <==> KindOf(path) in {Some(Snapshot), Some(IncrementalSnapshot)}
    ensures IsFileDownload(path) && !IsSnapshotPath(path) <==> path == GenesisPath
  {
    FamiliesDisjoint(path);
  }
}
