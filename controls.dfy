/// FATXTools.Controls.RecoveryResults: the control that shows the entries the
/// metadata analyzer recovered, grouped by the cluster each was found in,
/// and exports them into a host folder. Every method is proved against its
/// specification function in module RecoverySpec.
module Controls {
  import opened FileSystem
  import opened RecoverySpec

  class RecoveryResults {
    /** The volume the entries were recovered from. */
    const volume: Volume

    /** clusterNodes: the recovered entries by the cluster they were found in. */
    var clusterNodes: map<nat, seq<Entry>>
    /** The top-level nodes of treeView1. */
    var treeView: seq<TreeNode>

    /** The directories that exist in the destination. */
    var dirs: set<string>
    /** The operations performed on the destination so far. */
    var trace: seq<FsOp>
    /** The outcomes of the I/O attempts still to be made. */
    var attempts: seq<Attempt>
    /** The answers the user will give to the "Retry?" dialogs still to be shown. */
    var answers: seq<Answer>
    /** The outcomes of the directory creations still to be made. */
    var creations: seq<bool>

    function Export(): ExportState
      reads this
    {
      ExportState(dirs, trace, attempts, answers, creations)
    }

    /** The tree shows exactly the groups of the dictionary. */
    predicate Valid()
      reads this
    {
      TreeShows(clusterNodes, treeView)
    }

    /**
     * A new control over the analyzer's results `roots`: they are grouped
     * by cluster and shown in the tree straight away.
     */
    constructor(volume: Volume, roots: seq<Entry>, existing: set<string>,
                attempts: seq<Attempt>, answers: seq<Answer>, creations: seq<bool>)
      ensures this.volume == volume
      ensures clusterNodes == Group(map[], roots) && treeView == Tree([], roots)
      ensures Export() == ExportState(existing, [], attempts, answers, creations)
      ensures Valid()
    {
      this.volume := volume;
      clusterNodes := map[];
      treeView := [];
      dirs := existing;
      trace := [];
      this.attempts := attempts;
      this.answers := answers;
      this.creations := creations;
      new;
      PopulateTreeView(roots);
    }

    /** PopulateFolder: the nodes of the directories among `children`, subdirectories below each. */
    static method PopulateFolder(children: seq<Entry>) returns (nodes: seq<TreeNode>)
      ensures nodes == DirNodes(children)
      decreases children
    {
      nodes := [];
      for i := 0 to |children|
        invariant nodes == DirNodes(children[..i])
      {
        assert children[..i + 1][..i] == children[..i];
        var child := children[i];
        if child.isDirectory {
          var childNodes := PopulateFolder(child.children);
          nodes := nodes + [TreeNode(child.fileName, DirentTag(child), childNodes)];
        }
      }
      assert children[..|children|] == children;
    }

    /**
     * PopulateTreeView: each result is appended to the group of its cluster,
     * the cluster gets a node the first time, and a directory result gets a
     * node below it.
     */
    method PopulateTreeView(results: seq<Entry>)
      modifies this`clusterNodes, this`treeView
      ensures clusterNodes == Group(old(clusterNodes), results)
      ensures treeView == Tree(old(treeView), results)
      ensures old(Valid()) ==> Valid()
    {
      ghost var m0, t0 := clusterNodes, treeView;
      var groups, nodes := clusterNodes, treeView;
      for i := 0 to |results|
        invariant groups == Group(m0, results[..i])
        invariant nodes == Tree(t0, results[..i])
      {
        assert results[..i + 1][..i] == results[..i];
        var result := results[i];
        ghost var before, shown := groups, nodes;
        var cluster := result.cluster;
        if cluster !in groups {
          assert Get(groups, cluster) + [result] == [result];
          groups := groups[cluster := [result]];
        } else {
          groups := groups[cluster := groups[cluster] + [result]];
        }
        assert groups == AddToGroup(before, result);
        var clusterNodeText := ClusterText(cluster);
        var k := IndexOfText(nodes, clusterNodeText);
        if k == |nodes| {
          nodes := nodes + [TreeNode(clusterNodeText, ClusterTag(cluster), [])];
        }
        if result.isDirectory {
          var childNodes := PopulateFolder(result.children);
          var rootNode := TreeNode(result.fileName, DirentTag(result), childNodes);
          nodes := nodes[k := nodes[k].(nodes := nodes[k].nodes + [rootNode])];
        }
        assert nodes == AddToTree(shown, result);
      }
      assert results[..|results|] == results;
      clusterNodes, treeView := groups, nodes;
      if TreeShows(m0, t0) {
        PopulateKeepsTreeShowing(m0, t0, results);
      }
    }

    /** The suffix loop of FormatBytes; None where Suffix[i] would be out of range. */
    static method FormatBytes(bytes: int) returns (suffix: Option<string>)
      ensures suffix == SuffixFor(bytes)
    {
      var i := 0;
      var rest := bytes;
      while i < |Suffix| && rest >= 1024
        invariant 0 <= i <= |Suffix|
        invariant Divisions(bytes, |Suffix|) == i + Divisions(rest, |Suffix| - i)
      {
        i := i + 1;
        rest := rest / 1024;
      }
      suffix := if i < |Suffix| then Some(Suffix[i]) else None;
    }

    /**
     * WriteFile: FileSize bytes read on from the reader's position `start`,
     * in reads of at most 0x100000 bytes.
     */
    method WriteFile(start: nat, fileSize: nat) returns (data: seq<byte>, chunks: seq<nat>)
      ensures data == Contiguous(volume, start, fileSize)
      ensures chunks == ChunkSizes(fileSize)
    {
      var remains: nat := fileSize;
      var position: nat := start;
      data, chunks := [], [];
      while remains > 0
        invariant remains <= fileSize
        invariant position == start + (fileSize - remains)
        invariant data == Contiguous(volume, start, fileSize - remains)
        invariant chunks + ChunkSizes(remains) == ChunkSizes(fileSize)
      {
        var read := Min(remains, BufSize);
        assert ChunkSizes(remains) == [read] + ChunkSizes(remains - read);
        assert chunks + ChunkSizes(remains) == chunks + [read] + ChunkSizes(remains - read);
        remains := remains - read;
        var buf := Contiguous(volume, position, read);
        ContiguousSplit(volume, start, position - start, read);
        data := data + buf;
        chunks := chunks + [read];
        position := position + read;
      }
      assert chunks + [] == chunks;
    }

    /** The try/catch (IOException) and the "Retry?" loop, around an action performing `effect`. */
    method TryWithRetry(effect: seq<FsOp>) returns (st: Status)
      modifies this`trace, this`attempts, this`answers
      ensures (Export(), st) == RunRetry(old(Export()), effect)
    {
      var pending, unanswered, succeeded;
      pending, unanswered, succeeded, st := RetryAction(attempts, answers);
      if succeeded {
        trace := trace + effect;
      }
      attempts, answers := pending, unanswered;
    }

    /** TryFileWrite: the file written with FileMode.Create, then its timestamps. */
    method TryFileWrite(path: string, dirent: Entry, start: nat) returns (st: Status)
      modifies this`trace, this`attempts, this`answers
      ensures (Export(), st) ==
              RunRetry(old(Export()), [CreateFile(path, Contiguous(volume, start, dirent.fileSize)),
                                       SetFileTimes(path, dirent.times)])
    {
      var data, chunks := WriteFile(start, dirent.fileSize);
      st := TryWithRetry([CreateFile(path, data), SetFileTimes(path, dirent.times)]);
    }

    method TryDirectorySetTimestamps(path: string, dirent: Entry) returns (st: Status)
      modifies this`trace, this`attempts, this`answers
      ensures (Export(), st) == RunRetry(old(Export()), [SetDirectoryTimes(path, dirent.times)])
    {
      st := TryWithRetry([SetDirectoryTimes(path, dirent.times)]);
    }

    /** Directory.CreateDirectory: an exception, when it throws, leaves the export. */
    method CreateDirectory(path: string) returns (st: Status)
      modifies this`dirs, this`trace, this`creations
      ensures (Export(), st) == CreateDirectorySpec(old(Export()), path)
    {
      if creations == [] {
        return Stalled;
      }
      var created := creations[0];
      creations := creations[1..];
      if !created {
        return Thrown;
      }
      dirs := dirs + {path};
      trace := trace + [FsOp.CreateDirectory(path)];
      st := Done;
    }

    method SaveDirectory(dirent: Entry, path: string) returns (st: Status)
      modifies this`dirs, this`trace, this`attempts, this`answers, this`creations
      ensures (Export(), st) == SaveDirectorySpec(old(Export()), volume, path, dirent)
      decreases dirent, 1
    {
      var p := Join(path, dirent.fileName);
      if p !in dirs {
        st := CreateDirectory(p);
        if st != Done {
          return;
        }
      }
      st := SaveList(dirent.children, p);
      if st != Done {
        return;
      }
      st := TryDirectorySetTimestamps(p, dirent);
    }

    /** SaveFile: seek to the first cluster, then write from there. */
    method SaveFile(dirent: Entry, path: string) returns (st: Status)
      modifies this`trace, this`attempts, this`answers
      ensures (Export(), st) == SaveFileSpec(old(Export()), volume, path, dirent)
    {
      var p := Join(path, dirent.fileName);
      var start := volume.clusterOffset(dirent.firstCluster);
      st := TryFileWrite(p, dirent, start);
    }

    method Save(dirent: Entry, path: string) returns (st: Status)
      modifies this`dirs, this`trace, this`attempts, this`answers, this`creations
      ensures (Export(), st) == SaveSpec(old(Export()), volume, path, dirent)
      decreases dirent, 2
    {
      if dirent.isDirectory {
        st := SaveDirectory(dirent, path);
      } else {
        st := SaveFile(dirent, path);
      }
    }

    /** Save(List): each entry in order; an exception leaves the loop. */
    method SaveList(dirents: seq<Entry>, path: string) returns (st: Status)
      modifies this`dirs, this`trace, this`attempts, this`answers, this`creations
      ensures (Export(), st) == SaveListSpec(old(Export()), volume, path, dirents)
      decreases dirents, 0
    {
      ghost var s0 := Export();
      for i := 0 to |dirents|
        invariant (Export(), Done) == SaveListSpec(s0, volume, path, dirents[..i])
      {
        SaveListStep(s0, volume, path, dirents, i);
        st := Save(dirents[i], path);
        if st != Done {
          SaveListEnded(s0, volume, path, dirents, i);
          return;
        }
      }
      assert dirents[..|dirents|] == dirents;
      st := Done;
    }

    /**
     * "Recover current cluster" with the top-level node at position k
     * selected and `selectedPath` chosen in the folder dialog.
     */
    method RecoverCurrentCluster(selectedPath: string, k: nat) returns (st: Status)
      requires Valid() && k < |treeView|
      modifies this`dirs, this`trace, this`attempts, this`answers, this`creations
      ensures (Export(), st) == RecoverClusterSpec(old(Export()), volume, selectedPath, clusterNodes, treeView[k])
      ensures treeView[k].tag.ClusterTag?
      ensures ClusterFolderExport(old(Export()), (Export(), st), ClusterFolder(selectedPath, treeView[k].tag.cluster))
    {
      RecoverClusterFolder(Export(), volume, selectedPath, clusterNodes, treeView, k);
      var clusterNode := treeView[k];
      var clusterDir := selectedPath + "/" + clusterNode.text;
      st := CreateDirectory(clusterDir);
      if st != Done {
        return;
      }
      if clusterNode.tag.ClusterTag? {
        st := SaveList(Get(clusterNodes, clusterNode.tag.cluster), clusterDir);
      }
    }

    /**
     * "Recover current directory" over the tags of the list view's rows,
     * row 0 first, with `selectedPath` chosen in the folder dialog.
     */
    method RecoverCurrentDirectory(selectedPath: string, rows: seq<NodeTag>) returns (st: Status)
      modifies this`dirs, this`trace, this`attempts, this`answers, this`creations
      ensures (Export(), st) == RecoverDirectorySpec(old(Export()), volume, selectedPath, rows)
    {
      ghost var s0 := Export();
      st := Done;
      for i := 0 to |rows|
        invariant i == 0 ==> Export() == s0
        invariant i > 0 ==> (Export(), Done) == SaveListSpec(s0, volume, selectedPath, Dirents(rows[1..i]))
      {
        if i == 0 {
          continue;
        }
        DirentsStep(rows, i);
        if i == 1 {
          assert Dirents(rows[1..i]) == [];
        }
        ghost var prev := Export();
        assert (prev, Done) == SaveListSpec(s0, volume, selectedPath, Dirents(rows[1..i]));
        match rows[i]
        case DirentTag(dirent) =>
          SaveListAppend(s0, volume, selectedPath, Dirents(rows[1..i]), dirent);
          st := Save(dirent, selectedPath);
          if st != Done {
            SaveListStopsEarly(s0, volume, selectedPath, Dirents(rows[1..i + 1]), Dirents(rows[i + 1..]));
            return;
          }
          assert (Export(), Done) == SaveListSpec(s0, volume, selectedPath, Dirents(rows[1..i + 1]));
        case ClusterTag(_) =>
          assert Dirents(rows[1..i + 1]) == Dirents(rows[1..i]) + [] == Dirents(rows[1..i]);
      }
      if rows != [] {
        assert rows[1..|rows|] == rows[1..];
      }
      st := Done;
    }
  }

  /**
   * The first attempt and the while (true) loop of TryFileWrite and
   * TryDirectorySetTimestamps over the outcomes `attempts` and the answers
   * `answers`. Returns what is left of both and how the action ended.
   */
  method RetryAction(attempts: seq<Attempt>, answers: seq<Answer>)
    returns (pending: seq<Attempt>, unanswered: seq<Answer>, succeeded: bool, status: Status)
    ensures var r := TryAction(attempts, answers);
      && pending == attempts[r.attemptsUsed..]
      && unanswered == answers[r.answersUsed..]
      && succeeded == r.succeeded
      && status == r.status
  {
    if attempts == [] {
      return attempts, answers, false, Stalled;
    }
    pending, unanswered := attempts[1..], answers;
    if attempts[0] == Ok {
      return pending, unanswered, true, Done;
    }
    if attempts[0] == OtherError {
      return pending, unanswered, false, Thrown;
    }
    ghost var used, asked := 1, 0;
    while true
      invariant used <= |attempts| && asked <= |answers|
      invariant pending == attempts[used..] && unanswered == answers[asked..]
      invariant var r := DialogLoop(pending, unanswered);
        TryAction(attempts, answers) == Retried(used + r.attemptsUsed, asked + r.answersUsed, r.succeeded, r.status)
      decreases |unanswered|
    {
      if unanswered == [] {
        return pending, unanswered, false, Stalled;
      }
      var dialogResult := unanswered[0];
      unanswered := unanswered[1..];
      asked := asked + 1;
      if dialogResult == Yes {
        if pending == [] {
          return pending, unanswered, false, Stalled;
        }
        var outcome := pending[0];
        pending := pending[1..];
        used := used + 1;
        if outcome != Ok {
          continue;
        }
        return pending, unanswered, true, Done;
      }
      return pending, unanswered, false, Done;
    }
  }
}
