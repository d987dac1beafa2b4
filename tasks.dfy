/// FATXTools.Tasks.SaveContentTask: the background task that saves the
/// entries of a volume that were not deleted into a host folder. Every
/// method is proved against its specification function in module TaskSpec,
/// where the properties of the task are stated and proved.
module Tasks {
  import opened FileSystem
  import opened TaskSpec

  class SaveContentTask {
    /** The volume the entries come from. */
    const volume: Volume
    /** The first cancellation poll that finds cancellation requested. */
    const cancelFrom: nat

    var currentFile: string
    var numSaved: int
    var numFiles: int

    /** Every ReportProgress call so far. */
    var progress: seq<Progress>
    /** The directories that exist in the destination. */
    var dirs: set<string>
    /** The operations performed on the destination so far. */
    var trace: seq<FsOp>
    /** The outcomes of the I/O attempts still to be made. */
    var attempts: seq<bool>
    /** The answers the user will give to the error dialogs still to be shown. */
    var answers: seq<DialogResult>
    /** The outcomes of the directory creations still to be made. */
    var creations: seq<bool>
    /** How often the cancellation token was read. */
    var polls: nat

    function Snapshot(): TaskState
      reads this
    {
      TaskState(numSaved, numFiles, currentFile, progress, dirs, trace, attempts, answers, creations, polls, cancelFrom)
    }

    /** A new task: nothing saved, nothing reported, currentFile empty. */
    constructor(volume: Volume, cancelFrom: nat, existing: set<string>,
                attempts: seq<bool>, answers: seq<DialogResult>, creations: seq<bool>)
      ensures this.volume == volume
      ensures Snapshot() == TaskState(0, 0, "", [], existing, [], attempts, answers, creations, 0, cancelFrom)
    {
      this.volume := volume;
      this.cancelFrom := cancelFrom;
      currentFile := "";
      numSaved := 0;
      numFiles := 0;
      progress := [];
      dirs := existing;
      trace := [];
      this.attempts := attempts;
      this.answers := answers;
      this.creations := creations;
      polls := 0;
    }

    /** Save: numFiles is the node's file count (CountFiles), then the node is saved. */
    method Save(path: string, node: Entry, fileCount: int) returns (st: Status)
      modifies this
      ensures (Snapshot(), st) == SaveSpec(old(Snapshot()), volume, path, node, fileCount)
    {
      numFiles := fileCount;
      st := SaveNode(path, node);
    }

    /** SaveAll: numFiles is the volume's file count, then each node in list order. */
    method SaveAll(path: string, nodes: seq<Entry>, fileCount: int) returns (st: Status)
      modifies this
      ensures (Snapshot(), st) == SaveAllSpec(old(Snapshot()), volume, path, nodes, fileCount)
    {
      numFiles := fileCount;
      ghost var s0 := Snapshot();
      for i := 0 to |nodes|
        invariant (Snapshot(), Completed) == SaveNodesSpec(s0, volume, path, nodes[..i])
      {
        SaveNodesStep(s0, volume, path, nodes, i);
        st := SaveNode(path, nodes[i]);
        if st != Completed {
          SaveNodesStopsEarly(s0, volume, path, nodes, i + 1);
          return;
        }
      }
      assert nodes[..|nodes|] == nodes;
      st := Completed;
    }

    /**
     * The bytes written for `node`: for each cluster of its chain the
     * smaller of the bytes left and a whole cluster.
     */
    method WriteFile(node: Entry) returns (data: seq<byte>)
      ensures data == FileContent(volume, node)
      ensures |data| <= node.fileSize
    {
      var bytesLeft: nat := node.fileSize;
      var chain := volume.clusterChain(node.firstCluster);
      data := [];
      for i := 0 to |chain|
        invariant data == ChainWrite(volume, chain[..i], node.fileSize)
        invariant bytesLeft == node.fileSize - |data|
      {
        assert chain[..i + 1][..i] == chain[..i];
        var clusterData := volume.ReadCluster(chain[i]);
        var writeSize := Min(bytesLeft, volume.bytesPerCluster);
        data := data + clusterData[..writeSize];
        bytesLeft := bytesLeft - writeSize;
      }
      assert chain[..|chain|] == chain;
    }

    /**
     * Runs the action whose successful run performs `effect` until the
     * dialog variable is not Retry after an attempt. Returns false when it
     * would need an attempt or an answer that is not there.
     */
    method TryIOOperation(effect: seq<FsOp>) returns (ended: bool)
      modifies this
      ensures (Snapshot(), ended) == RunIo(old(Snapshot()), effect)
    {
      ghost var s0 := Snapshot();
      ghost var r := TryIo(attempts, answers, None);
      var pending, unanswered, performed;
      pending, unanswered, performed, ended := RetryLoop(effect, attempts, answers);
      RunIoOf(s0, effect, r.attemptsUsed, r.answersUsed, r.successes, r.ended);
      attempts, answers, trace := pending, unanswered, trace + performed;
    }

    /** ReportProgress: the counters and currentFile as they are now. */
    method ReportProgress()
      modifies this
      ensures Snapshot() == old(Snapshot()).(progress := old(progress) + [Progress(numSaved, numFiles, currentFile)])
    {
      progress := progress + [Progress(numSaved, numFiles, currentFile)];
    }

    /** cancellationToken.IsCancellationRequested; Cancelled stands for the exception thrown. */
    method CheckCancellation() returns (st: Status)
      modifies this
      ensures (Snapshot(), st) == Poll(old(Snapshot()))
    {
      st := if polls >= cancelFrom then Cancelled else Completed;
      polls := polls + 1;
    }

    method SaveFile(path: string, node: Entry) returns (st: Status)
      modifies this
      ensures (Snapshot(), st) == SaveFileSpec(old(Snapshot()), volume, path, node)
    {
      ghost var s0 := Snapshot();
      var p := Join(path, node.fileName);
      currentFile := node.fileName;
      numSaved := numSaved + 1;
      ReportProgress();
      assert Snapshot() == Report(s0, node.fileName);
      var data := WriteFile(node);
      var ended := TryIOOperation([OpenWrite(p, data), SetFileTimes(p, node.times)]);
      if !ended {
        return Stalled;
      }
      st := CheckCancellation();
    }

    /** Directory.CreateDirectory: a failure throws out of the task. */
    method CreateDirectory(path: string) returns (st: Status)
      modifies this
      ensures (Snapshot(), st) == CreateDirectorySpec(old(Snapshot()), path)
    {
      if creations == [] {
        return Stalled;
      }
      var created := creations[0];
      creations := creations[1..];
      if !created {
        return Failed;
      }
      dirs := dirs + {path};
      trace := trace + [FsOp.CreateDirectory(path)];
      st := Completed;
    }

    method SaveDirectory(path: string, node: Entry) returns (st: Status)
      modifies this
      ensures (Snapshot(), st) == SaveDirectorySpec(old(Snapshot()), volume, path, node)
    {
      var p := Join(path, node.fileName);
      currentFile := node.fileName;
      numSaved := numSaved + 1;
      ReportProgress();
      if p !in dirs {
        st := CreateDirectory(p);
        if st != Completed {
          return;
        }
      }
      st := SaveChildren(p, node.children);
      if st != Completed {
        return;
      }
      var ended := TryIOOperation([SetDirectoryTimes(p, node.times)]);
      if !ended {
        return Stalled;
      }
      st := CheckCancellation();
    }

    /** The foreach loop of SaveDirectory: SaveFile on every child, in stored order. */
    method SaveChildren(p: string, children: seq<Entry>) returns (st: Status)
      modifies this
      ensures (Snapshot(), st) == SaveChildrenSpec(old(Snapshot()), volume, p, children)
    {
      ghost var s0 := Snapshot();
      for i := 0 to |children|
        invariant (Snapshot(), Completed) == SaveChildrenSpec(s0, volume, p, children[..i])
      {
        SaveChildrenStep(s0, volume, p, children, i);
        st := SaveFile(p, children[i]);
        if st != Completed {
          SaveChildrenStopsEarly(s0, volume, p, children, i + 1);
          return;
        }
      }
      assert children[..|children|] == children;
      st := Completed;
    }

    /** A deleted entry cannot be saved: only currentFile changes. */
    method SaveDeleted(path: string, node: Entry)
      modifies this
      ensures Snapshot() == old(Snapshot()).(currentFile := node.fullPath)
    {
      currentFile := node.fullPath;
    }

    method SaveNode(path: string, node: Entry) returns (st: Status)
      modifies this
      ensures (Snapshot(), st) == SaveNodeSpec(old(Snapshot()), volume, path, node)
    {
      if node.isDeleted {
        SaveDeleted(path, node);
        return Completed;
      }
      if node.isDirectory {
        st := SaveDirectory(path, node);
      } else {
        st := SaveFile(path, node);
      }
    }
  }

  /**
   * The while (true) loop of TryIOOperation over the outcomes `attempts`
   * and the answers `answers`: every successful attempt performs `effect`.
   * Returns what is left of both inputs and the operations performed.
   */
  method RetryLoop(effect: seq<FsOp>, attempts: seq<bool>, answers: seq<DialogResult>)
    returns (pending: seq<bool>, unanswered: seq<DialogResult>, performed: seq<FsOp>, ended: bool)
    ensures var r := TryIo(attempts, answers, None);
      && ended == r.ended
      && pending == attempts[r.attemptsUsed..]
      && unanswered == answers[r.answersUsed..]
      && performed == Repeat(effect, r.successes)
  {
    ghost var r0 := TryIo(attempts, answers, None);
    ghost var usedAttempts, usedAnswers, successes := 0, 0, 0;
    pending, unanswered, performed := attempts, answers, [];
    var dialogResult := None;
    while true
      invariant usedAttempts <= |attempts| && usedAnswers <= |answers|
      invariant pending == attempts[usedAttempts..] && unanswered == answers[usedAnswers..]
      invariant performed == Repeat(effect, successes)
      invariant var r := TryIo(pending, unanswered, dialogResult);
        r0 == Run(usedAttempts + r.attemptsUsed, usedAnswers + r.answersUsed, successes + r.successes, r.ended)
      decreases |pending|
    {
      if pending == [] {
        return pending, unanswered, performed, false;
      }
      var ok := pending[0];
      pending := pending[1..];
      usedAttempts := usedAttempts + 1;
      if ok {
        performed := performed + effect;
        successes := successes + 1;
      } else {
        if unanswered == [] {
          return pending, unanswered, performed, false;
        }
        dialogResult := unanswered[0];
        unanswered := unanswered[1..];
        usedAnswers := usedAnswers + 1;
      }
      if dialogResult != Retry {
        return pending, unanswered, performed, true;
      }
    }
  }
}
