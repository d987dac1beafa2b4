/// The values both exporters work on: the directory entries recovered by the
/// metadata scanner, the volume they were recovered from, and the operations
/// an export performs on the destination folder of the host.
module FileSystem {

  type byte = bv8

  /** The creation, last-write and last-access timestamps of an entry, as stored. */
  datatype Timestamps = Timestamps(creation: int, lastWrite: int, lastAccess: int)

  /**
   * A recovered directory entry (FATX.FileSystem.DirectoryEntry). The engine
   * never changes an entry, so it is a value. `cluster` is what GetCluster()
   * returns: the cluster the record itself was found in. `fullPath` is what
   * GetFullPath() returns; parent links are not part of this model.
   */
  datatype Entry = Entry(
    fileName: string,
    fileSize: nat,
    firstCluster: nat,
    cluster: nat,
    isDirectory: bool,
    isDeleted: bool,
    attributes: bv8,
    times: Timestamps,
    fullPath: string,
    children: seq<Entry>)

  function Min(a: nat, b: nat): nat {
    if a <= b then a else b
  }

  /**
   * The volume, read-only during an export. `clusterChain(first)` is what the
   * file allocation table's GetClusterChain yields for an entry starting at
   * `first`; `clusterOffset` is ClusterToPhysicalOffset; `byteAt` is the
   * volume's byte at a physical offset.
   */
  datatype Volume = Volume(
    bytesPerCluster: nat,
    clusterChain: nat -> seq<nat>,
    clusterOffset: nat -> nat,
    byteAt: nat -> byte)
  {
    /** ClusterReader.ReadCluster: one whole cluster. */
    function ReadCluster(c: nat): (data: seq<byte>)
      ensures |data| == bytesPerCluster
      ensures forall k :: 0 <= k < |data| ==> data[k] == byteAt(clusterOffset(c) + k)
    {
      seq(bytesPerCluster, k requires 0 <= k => byteAt(clusterOffset(c) + k))
    }
  }

  /** The destination path of an entry saved into the folder `path`. */
  function Join(path: string, name: string): (p: string)
    ensures |p| == |path| + 1 + |name|
    ensures p[..|path|] == path && p[|path|] == '\\'
  {
    path + "\\" + name
  }

  /**
   * `q` names something inside the folder `p`, read as text: `q` extends
   * `p` by a separator and more. Names such as ".." are not resolved and
   * case is significant.
   */
  predicate Within(q: string, p: string) {
    |q| > |p| && q[..|p|] == p && q[|p|] == '\\'
  }

  /** What is inside a subfolder of `p` is inside `p`. */
  lemma WithinNested(q: string, path: string, name: string)
    requires Within(q, Join(path, name))
    ensures Within(q, path)
  {
    var p := Join(path, name);
    assert q[..|path|] == q[..|p|][..|path|];
    assert q[|path|] == q[..|p|][|path|];
  }

  /**
   * One operation on the destination folder, in the order the exporter
   * performs it. The two ways of opening a file for writing differ:
   * File.OpenWrite keeps bytes past the written ones, FileMode.Create
   * truncates first.
   */
  datatype FsOp =
    | CreateDirectory(path: string)
    | OpenWrite(path: string, data: seq<byte>)
    | CreateFile(path: string, data: seq<byte>)
    | SetFileTimes(path: string, times: Timestamps)
    | SetDirectoryTimes(path: string, times: Timestamps)
  {
    function Path(): string {
      match this
      case CreateDirectory(p) => p
      case OpenWrite(p, _) => p
      case CreateFile(p, _) => p
      case SetFileTimes(p, _) => p
      case SetDirectoryTimes(p, _) => p
    }
  }

  /** The content of the file at `op.Path()` after `op`, given its content `before`. */
  function ContentAfter(before: seq<byte>, op: FsOp): (after: seq<byte>)
    requires op.OpenWrite? || op.CreateFile?
    ensures op.CreateFile? ==> after == op.data
    ensures op.OpenWrite? ==> |after| == if |op.data| <= |before| then |before| else |op.data|
    ensures after[..|op.data|] == op.data
  {
    if op.CreateFile? || |before| <= |op.data| then op.data
    else op.data + before[|op.data|..]
  }

  /**
   * Opening with File.OpenWrite over a longer existing file leaves that
   * file's tail in place: the result is not the recovered content alone.
   */
  lemma OpenWriteKeepsStaleTail(before: seq<byte>, p: string, data: seq<byte>)
    requires |data| < |before|
    ensures ContentAfter(before, OpenWrite(p, data)) != data
    ensures ContentAfter(before, OpenWrite(p, data))[|data|..] == before[|data|..]
    ensures ContentAfter(before, CreateFile(p, data)) == data
  {
    var after := ContentAfter(before, OpenWrite(p, data));
    assert |after| == |before| > |data|;
  }
}
