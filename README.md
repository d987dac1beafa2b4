# FATXTools export logic, modelled in Dafny

FATXTools reads Xbox FATX volumes. This project models the parts of it that
write directory entries from a volume into a folder of the host. There are
two exporters:

- **SaveContentTask** (`FATXTools/Tasks/SaveContentTask.cs`) is the
  background task that saves entries that were not deleted.
  - It keeps the counters `numSaved` and `numFiles` and the name of the
    current file, and reports progress after each entry.
  - It writes each file from the entry's cluster chain, one cluster at a time.
  - It retries failed I/O while the user answers Retry.
  - It checks for cancellation after every file and directory.
- **RecoveryResults** (`FATXTools/Controls/RecoveryResults.cs`) is the control
  that shows the entries the metadata analyzer recovered.
  - It groups the entries by the cluster each was found in, and builds a tree
    with one node per cluster and the directories below it.
  - It exports a whole cluster, or the rows of the current list view.
  - Its export recurses into directories, reads file content in chunks of
    0x100000 bytes, and asks "Retry?" after an IOException.

A third, small piece is `FileInfoDialog.FormatAttributes`: the one-letter
attribute column of the file information dialog.

## Layout

- `filesystem.dfy` (module `FileSystem`) holds the values both exporters use:
  - `Entry` stands for a DirectoryEntry and `Volume` for the volume's reads.
  - `Join` is the `path + "\\" + name` of both exporters.
  - `FsOp` is one operation on the destination folder.
- `dialogs.dfy` (module `Dialogs`) holds `FormatAttributes` and a
  reference definition of it: a priority list of flags.
- `task_spec.dfy` (module `TaskSpec`) holds a function for each operation of
  SaveContentTask, over an immutable `TaskState`, and the lemmas about them.
- `tasks.dfy` (module `Tasks`) holds the class `SaveContentTask`, with the
  fields of the source and methods with loops. Each method ensures that its
  new state and outcome are those of its function in `TaskSpec`.
- `recovery_spec.dfy` (module `RecoverySpec`) holds the grouping, the tree,
  the suffix index of FormatBytes, the chunked read, the "Retry?" loops and
  the export functions, with their lemmas.
- `controls.dfy` (module `Controls`) holds the class `RecoveryResults`.
  - The `clusterNodes` dictionary is a `map` field and the tree a `seq` field.
  - The destination and the inputs are fields as well.
  - Each method is proved against its function in `RecoverySpec`.

## How the outside world is modelled

- **The destination folder.** It is an append-only trace of operations
  (`FsOp`) plus the set of directories that exist. Both start from values the
  caller gives.
- **I/O outcomes and dialog answers.** They are finite input sequences held by
  the object. Every attempt at an action takes the next outcome, and every
  dialog takes the next answer.
  - SaveContentTask's outcomes are booleans: did the action throw or not.
  - RecoveryResults' outcomes distinguish an IOException from any other
    exception, because only IOException is caught on the first attempt.
  - Directory creation takes its outcome from a third sequence of booleans.
    `Directory.CreateDirectory` is called outside any try in both exporters.
    It throws when, for instance, a file of that name is in the way. Then the
    export ends with that exception and no dialog: the status `Failed` in
    SaveContentTask, `Thrown` in RecoveryResults.
  - When an operation would need an outcome or an answer that the sequence no
    longer holds, it ends with the status `Stalled`.
- **The cancellation token.** It is read as an oracle: the k-th poll finds
  cancellation requested exactly when `k >= cancelFrom`.
  `OperationCanceledException` is the status `Cancelled`.
- **What the volume provides.** The volume's cluster chains, cluster offsets
  and bytes are functions held by `Volume`. `CountFiles` is a parameter.

Where a documentation comment and the code disagree, the model follows the
code. The comment on `TryIOOperation` says it runs the operation until it
succeeds. In the code the dialog variable is never reset. So after one
failure answered with Retry, a later success does not leave the loop, and the
action runs again. `TaskSpec.TryIoSuccessAfterRetryLoops` and
`TaskSpec.RetriedThenSucceedingNeverEnds` state this.

Subdirectories below the top level show two other ways in which the exporters
differ:

- SaveContentTask's `SaveDirectory` passes every child to `SaveFile`. That
  includes subdirectories and deleted children. It is one level deep.
- RecoveryResults' `Save` recurses into directories and never looks at the
  deletion flag.

They also write files differently:

- SaveContentTask opens files with `File.OpenWrite`. That does not truncate,
  so a longer file already at that path keeps its tail
  (`FileSystem.OpenWriteKeepsStaleTail`).
- RecoveryResults creates files with `FileMode.Create`.

## Model

| member | source | states |
|---|---|---|
| Dialogs.FormatAttributes | FATXTools/Dialogs/FileInfoDialog.cs:57-83 | The result has at most one letter. It is "A" whenever Archive is set, and "D" when Directory is set and Archive is clear. It is empty exactly when none of the five flags is set. |
| Dialogs.FormatAttributesIsFirstSetFlag | FATXTools/Dialogs/FileInfoDialog.cs:59-82 | The if/else-if chain equals the letter of the first set flag in the priority list A, D, H, R, S. |
| Dialogs.FormatAttributesPriority | FATXTools/Dialogs/FileInfoDialog.cs:61-80 | The letter of flag k shows exactly when flag k is set and every flag of higher priority is clear. |
| FileSystem.OpenWriteKeepsStaleTail | FATXTools/Tasks/SaveContentTask.cs:81 | Describes the host call on its own. File.OpenWrite over a longer existing file leaves that file's tail after the written bytes, so the file is not the written content alone. FileMode.Create leaves exactly the written content. |
| Tasks.SaveContentTask.constructor | FATXTools/Tasks/SaveContentTask.cs:21-30 | A new task has saved nothing and reported nothing, and currentFile is empty. |
| Tasks.SaveContentTask.Save | FATXTools/Tasks/SaveContentTask.cs:37-44 | numFiles becomes the node's file count. Then the node is saved: the new state and outcome are those of `TaskSpec.SaveSpec`. |
| Tasks.SaveContentTask.SaveAll | FATXTools/Tasks/SaveContentTask.cs:51-61 | numFiles becomes the volume's file count. Then the nodes are saved in list order, and the loop is left at the first cancellation. The result is that of `TaskSpec.SaveAllSpec`. |
| Tasks.SaveContentTask.WriteFile | FATXTools/Tasks/SaveContentTask.cs:79-97 | The bytes written are `TaskSpec.ChainWrite` of the entry's chain: from each cluster, the smaller of bytesLeft and a whole cluster. bytesLeft never goes below zero, and the total never exceeds FileSize. |
| Tasks.RetryLoop | FATXTools/Tasks/SaveContentTask.cs:130-145 | The while (true) loop takes attempts and answers exactly as `TaskSpec.TryIo` describes. It performs the action's effect once per successful attempt, and ends exactly when TryIo says the loop is left. |
| Tasks.SaveContentTask.TryIOOperation | FATXTools/Tasks/SaveContentTask.cs:128-146 | The new trace, the remaining attempts and the remaining answers are those of `TaskSpec.RunIo`. |
| Tasks.SaveContentTask.ReportProgress | FATXTools/Tasks/SaveContentTask.cs:148-152 | Appends one report carrying the current numSaved, numFiles and currentFile. Nothing else changes. |
| Tasks.SaveContentTask.CheckCancellation | FATXTools/Tasks/SaveContentTask.cs:176-179 | Reads the token once. The result is Cancelled exactly when this poll is at or after the first cancelled one. |
| Tasks.SaveContentTask.SaveFile | FATXTools/Tasks/SaveContentTask.cs:159-180 | Sets currentFile, increments numSaved, and reports progress. Then it retries the write and timestamps of the file, then polls for cancellation. The result is `TaskSpec.SaveFileSpec`. |
| Tasks.SaveContentTask.SaveDirectory | FATXTools/Tasks/SaveContentTask.cs:187-216 | Reports like SaveFile and creates the folder only when it is absent; a failed creation leaves the method. Then it saves each child with SaveFile and retries the directory timestamps, then polls. The result is `TaskSpec.SaveDirectorySpec`. |
| Tasks.SaveContentTask.CreateDirectory | FATXTools/Tasks/SaveContentTask.cs:197-200 | Takes the next creation outcome. The result is `TaskSpec.CreateDirectorySpec`. |
| Tasks.SaveContentTask.SaveChildren | FATXTools/Tasks/SaveContentTask.cs:202-205 | The foreach loop over the children: SaveFile on each, in stored order, until one does not complete. The result is `TaskSpec.SaveChildrenSpec`. |
| Tasks.SaveContentTask.SaveDeleted | FATXTools/Tasks/SaveContentTask.cs:224-231 | Only currentFile changes. It becomes the entry's full path. |
| Tasks.SaveContentTask.SaveNode | FATXTools/Tasks/SaveContentTask.cs:238-254 | A deleted node goes to SaveDeleted, a directory to SaveDirectory, and anything else to SaveFile. The result is `TaskSpec.SaveNodeSpec`. |
| TaskSpec.TryIo | FATXTools/Tasks/SaveContentTask.cs:130-145 | The loop never takes more attempts or answers than there are. Successes and dialogs together never outnumber the attempts. With at least one attempt available, it makes at least one. |
| TaskSpec.TryIoFirstAttemptSucceeds | FATXTools/Tasks/SaveContentTask.cs:130-145 | When the first attempt succeeds, the action runs exactly once, no dialog is shown, and the loop is left. |
| TaskSpec.TryIoFailureNotRetried | FATXTools/Tasks/SaveContentTask.cs:138-144 | A failed attempt answered with anything but Retry leaves the loop after one attempt and one answer. |
| TaskSpec.TryIoSuccessAfterRetryLoops | FATXTools/Tasks/SaveContentTask.cs:130-145 | Once the dialog variable holds Retry, successful attempts never leave the loop. Each one runs the action again. |
| TaskSpec.RetriedThenSucceedingNeverEnds | FATXTools/Tasks/SaveContentTask.cs:124-145 | A failure answered with Retry, followed by any number of successes, does not end the loop. This contradicts the "until it succeeds" of the method's comment. |
| TaskSpec.TryIoEndsCounts | FATXTools/Tasks/SaveContentTask.cs:132-145 | When the loop is left, the action ran once per successful attempt, and a dialog was shown once per failed attempt. |
| TaskSpec.TryIoEndsAnswers | FATXTools/Tasks/SaveContentTask.cs:132-145 | The loop is left exactly in two cases. Either every answer but the last was Retry, and the last attempt failed and was not answered Retry. Or no dialog was shown and the single attempt succeeded. |
| TaskSpec.ChainWrite | FATXTools/Tasks/SaveContentTask.cs:83-95 | The total written is min(FileSize, number of clusters in the chain × BytesPerCluster). |
| TaskSpec.ChainWriteCluster | FATXTools/Tasks/SaveContentTask.cs:87-95 | The k-th cluster of the chain contributes exactly WriteSize(k) bytes: the leading bytes of that cluster. They are placed at offset min(FileSize, k × BytesPerCluster). |
| TaskSpec.ChainWriteClusterLast | FATXTools/Tasks/SaveContentTask.cs:87-95 | The last cluster of the chain contributes its leading WriteSize bytes at the end of what the earlier clusters wrote. |
| TaskSpec.WriteSizeShape | FATXTools/Tasks/SaveContentTask.cs:91 | The per-cluster sizes are BytesPerCluster while whole clusters remain, then the remainder, then 0 for every further cluster. |
| TaskSpec.WriteSizeExample | FATXTools/Tasks/SaveContentTask.cs:91-94 | A 10000-byte file over 4096-byte clusters is written as 4096, 4096 and then 1808 bytes. |
| TaskSpec.ChainWriteExample | FATXTools/Tasks/SaveContentTask.cs:83-95 | Over any chain of three 4096-byte clusters, a 10000-byte file is written whole: 10000 bytes, the last 1808 of them the leading bytes of the third cluster. |
| TaskSpec.SaveFileProgress | FATXTools/Tasks/SaveContentTask.cs:165-167 | SaveFile increments numSaved by exactly one and reports the file's name with the new count. |
| TaskSpec.SaveChildrenProgress | FATXTools/Tasks/SaveContentTask.cs:202-205 | The children are reported in stored order, with one increment of numSaved each. All of them are reported unless a child ends the loop without completing. |
| TaskSpec.SaveDirectoryProgress | FATXTools/Tasks/SaveContentTask.cs:193-205 | SaveDirectory reports the directory first, even when its folder cannot be created, and then its children, with one increment each. When it completes, numSaved has risen by 1 + the number of children. |
| TaskSpec.SaveNodeProgress | FATXTools/Tasks/SaveContentTask.cs:238-254 | SaveNode reports the names of `Visit(node)` in order, with one increment each. A deleted node reports nothing. |
| TaskSpec.SaveNodesProgress | FATXTools/Tasks/SaveContentTask.cs:57-60 | SaveAll reports the top-level nodes in list order, each followed by its children. Deleted nodes are skipped. All of them are reported when the loop completes. |
| TaskSpec.SaveDeletedChangesOnlyCurrentFile | FATXTools/Tasks/SaveContentTask.cs:224-244 | A deleted node creates no file or directory, leaves numSaved and the reports unchanged, and changes only currentFile. |
| TaskSpec.SaveNodesSkipsDeleted | FATXTools/Tasks/SaveContentTask.cs:57-60 | Saving a list that starts with a deleted node is saving the rest of the list. Only currentFile differs. |
| TaskSpec.SaveNodesStopsEarly | FATXTools/Tasks/SaveContentTask.cs:57-60 | Once a node ends without completing (cancelled, failed or stalled), no later node is started: the whole list ends as its first nodes did. |
| TaskSpec.SaveChildrenStopsEarly | FATXTools/Tasks/SaveContentTask.cs:202-205 | Once a child ends without completing, the later children are not started: the loop ends as its first children did. |
| TaskSpec.SaveFilePolls | FATXTools/Tasks/SaveContentTask.cs:176-179 | SaveFile ends as Cancelled exactly at the first poll that finds cancellation requested. If it is not cancelled, it never read the token as cancelled. |
| TaskSpec.SaveChildrenPolls | FATXTools/Tasks/SaveContentTask.cs:202-205 | Same for the loop over the children: it stops at the first poll that finds cancellation requested. |
| TaskSpec.SaveNodePolls | FATXTools/Tasks/SaveContentTask.cs:238-254 | Same for SaveNode, with a directory's children and its own poll included. A directory whose folder cannot be created reads no token. |
| TaskSpec.SaveNodesPolls | FATXTools/Tasks/SaveContentTask.cs:57-60 | SaveAll stops at the first poll that finds cancellation requested. |
| TaskSpec.SaveFileOps | FATXTools/Tasks/SaveContentTask.cs:169-174 | SaveFile only writes its own file, with the chain's content, and sets that file's timestamps. |
| TaskSpec.SaveFileKeepsStaleTail | FATXTools/Tasks/SaveContentTask.cs:79-97 | Every file write in SaveFile's part of the trace is a File.OpenWrite of the chain's content. Over an existing file longer than that content, the file afterwards starts with the content and keeps the old file's tail, so it is not the content alone. |
| TaskSpec.SaveChildrenOps | FATXTools/Tasks/SaveContentTask.cs:202-205 | The children of a directory only write files and set those files' timestamps, each at a path that extends the directory's path (`Within`). |
| TaskSpec.SaveDirectoryOrder | FATXTools/Tasks/SaveContentTask.cs:197-210 | The folder is created first, and only when it is absent. Every operation after it is on a path that extends the folder's path. The folder's timestamps come after every child's. Afterwards the folder exists, unless its creation failed; then the task ends as Failed (or Stalled) with the destination untouched. |
| TaskSpec.CreateDirectorySpec | FATXTools/Tasks/SaveContentTask.cs:197-200 | The creation completes exactly when its outcome is a success. Then the folder exists and CreateDirectory is the only new operation. Otherwise the task ends as Failed (or Stalled for want of an outcome) and only the outcome is used up. |
| TaskSpec.FillDirectoryOps | FATXTools/Tasks/SaveContentTask.cs:202-210 | Once the folder exists, the children write only files on paths that extend the folder's path, and only the folder's own timestamps are set after them. The set of folders does not change. |
| TaskSpec.DirectoryTimesOps | FATXTools/Tasks/SaveContentTask.cs:207-210 | The retried DirectorySetTimestamps only sets the timestamps of its own folder. |
| RecoverySpec.ClusterText | FATXTools/Controls/RecoveryResults.cs:86 | The text of a cluster's node is "Cluster " followed by the cluster's decimal digits. |
| RecoverySpec.ClusterTextInjective | FATXTools/Controls/RecoveryResults.cs:86-96 | Two clusters never share a node text, so the text is a key for the node. |
| RecoverySpec.IndexOfText | FATXTools/Controls/RecoveryResults.cs:88-96 | The node found has the cluster's text. When none is found, no top-level node has it. |
| RecoverySpec.GroupIsPartition | FATXTools/Controls/RecoveryResults.cs:67-84 | A cluster's group after PopulateTreeView is its old group, never cleared or reordered, followed by the inputs found in that cluster in input order. A key exists exactly when it existed before or some input was found in that cluster. |
| RecoverySpec.InClusterMembers | FATXTools/Controls/RecoveryResults.cs:67-84 | An entry is added to the group of a cluster exactly when it is an input found in that cluster. |
| RecoverySpec.GroupTotal | FATXTools/Controls/RecoveryResults.cs:67-84 | The groups together grow by exactly the number of inputs. |
| RecoverySpec.DirNodesOnlyDirectories | FATXTools/Controls/RecoveryResults.cs:52-63 | PopulateFolder gives every directory among the children its own node, and no file a node, at every depth. |
| RecoverySpec.PopulateKeepsTreeShowing | FATXTools/Controls/RecoveryResults.cs:65-105 | If the tree showed the dictionary before PopulateTreeView, it shows it afterwards. That is one top-level node per key, with the cluster's text, holding the directory nodes of the group in group order. |
| RecoverySpec.TreeHoldsOnlyDirectories | FATXTools/Controls/RecoveryResults.cs:98-103 | Below the cluster nodes there are only directories, at every depth. |
| RecoverySpec.DivisionsIs | FATXTools/Controls/RecoveryResults.cs:112 | Below the limit, the suffix index is k exactly when 1024^k <= bytes < 1024^(k+1). It reaches the limit exactly when bytes >= 1024^limit. |
| RecoverySpec.SuffixFor | FATXTools/Controls/RecoveryResults.cs:109-117 | Sizes under 1024 get "B". There is no suffix, because Suffix[5] is out of range, exactly when bytes >= 1024^5. |
| RecoverySpec.ChunkSizesShape | FATXTools/Controls/RecoveryResults.cs:251-258 | The reads add up to exactly FileSize. None is empty or larger than 0x100000, and all but the last are full. |
| RecoverySpec.DialogLoop | FATXTools/Controls/RecoveryResults.cs:273-293 | The loop after the first failure never throws, because its catch takes every exception. A success always ends it normally. |
| RecoverySpec.TryActionFirstAttempt | FATXTools/Controls/RecoveryResults.cs:264-270 | A first attempt that succeeds shows no dialog. A first attempt that throws anything but an IOException leaves the method with that exception. |
| RecoverySpec.DialogLoopEnds | FATXTools/Controls/RecoveryResults.cs:273-293 | When the loop ends, every answer but the last was Yes, and each Yes made exactly one attempt. Every attempt failed, except the last one when the loop ended by success. So the loop ended at the first success or at the first No. |
| RecoverySpec.SaveListStopsEarly | FATXTools/Controls/RecoveryResults.cs:379-385 | Once an entry ends with an exception, no later entry of the list is started. |
| RecoverySpec.SaveScope | FATXTools/Controls/RecoveryResults.cs:365-377 | Save only adds to the trace and to the existing folders. Every path it touches extends the target folder's path (`Within`). |
| RecoverySpec.SaveListScope | FATXTools/Controls/RecoveryResults.cs:379-385 | The same holds for saving a list of entries. |
| RecoverySpec.SaveDirectoryOrder | FATXTools/Controls/RecoveryResults.cs:341-355 | The folder is created first, and only when it is absent. Every operation after it is on a path that extends the folder's path. Its timestamps, if set at all, come last. Afterwards the folder exists, unless its creation threw; then nothing was written at all. |
| RecoverySpec.CreateDirectorySpec | FATXTools/Controls/RecoveryResults.cs:344-347 | The creation ends normally exactly when its outcome is a success. Then the folder exists and CreateDirectory is the only new operation. Otherwise it throws (or stalls for want of an outcome) and the folders and the trace are unchanged. |
| RecoverySpec.SaveIdeal | FATXTools/Controls/RecoveryResults.cs:341-377 | When every attempt and every folder creation succeeds, Save ends normally without a dialog. It makes one attempt per entry of the subtree and uses at most one creation per entry. It writes exactly the files of the subtree, each at the path its names join to, in order (`Written`). It sets the timestamps of every entry once, each folder after its contents (`Stamped`), deleted entries included. |
| RecoverySpec.SaveListIdeal | FATXTools/Controls/RecoveryResults.cs:379-385 | The same holds for a list: the targets are those of the entries one after the other. |
| RecoverySpec.Stamped | FATXTools/Controls/RecoveryResults.cs:341-377 | One timestamp target per entry of the subtree. |
| RecoverySpec.ClusterFolderInjective | FATXTools/Controls/RecoveryResults.cs:475 | Two clusters never share an export folder. |
| RecoverySpec.RecoverClusterFolder | FATXTools/Controls/RecoveryResults.cs:471-492 | On a tree that shows the dictionary, the selected node is a cluster node. The export either creates the folder "Cluster " + cluster first, and every path it touches afterwards extends that folder's path, or that creation throws and nothing is written. |
| RecoverySpec.DirentsMembers | FATXTools/Controls/RecoveryResults.cs:428-439 | An entry is handed to SaveList exactly when some row is tagged with it. Rows tagged with a cluster are passed over. |
| RecoverySpec.RecoverDirectorySkipsUpRow | FATXTools/Controls/RecoveryResults.cs:421-426 | Whatever row 0 stands for, the export does not depend on it. |
| Controls.RecoveryResults.constructor | FATXTools/Controls/RecoveryResults.cs:25-32 | A new control runs PopulateTreeView on the analyzer's results: the dictionary is `Group` of them and the tree is `Tree` of them, and the tree shows the dictionary. Nothing has been exported yet. |
| Controls.RecoveryResults.PopulateFolder | FATXTools/Controls/RecoveryResults.cs:52-63 | The nodes added are `RecoverySpec.DirNodes` of the children: one per directory, in order, with its subdirectories below it. |
| Controls.RecoveryResults.PopulateTreeView | FATXTools/Controls/RecoveryResults.cs:65-105 | The dictionary becomes `Group` of the inputs and the tree becomes `Tree` of the inputs. A tree that showed the dictionary still shows it. |
| Controls.RecoveryResults.FormatBytes | FATXTools/Controls/RecoveryResults.cs:107-118 | The loop's suffix is `RecoverySpec.SuffixFor(bytes)`. |
| Controls.RecoveryResults.WriteFile | FATXTools/Controls/RecoveryResults.cs:244-260 | Writes FileSize bytes read on from the reader's position, in the reads of `RecoverySpec.ChunkSizes`. |
| Controls.RetryAction | FATXTools/Controls/RecoveryResults.cs:262-295 | The first attempt and the while (true) loop take attempts and answers as `RecoverySpec.TryAction` describes, and end as it says. |
| Controls.RecoveryResults.TryWithRetry | FATXTools/Controls/RecoveryResults.cs:264-293 | The action's effect is performed when it succeeds. The remaining inputs and the status are those of `RecoverySpec.RunRetry`. |
| Controls.RecoveryResults.TryFileWrite | FATXTools/Controls/RecoveryResults.cs:262-295 | Performs a retried write of the recovered content with FileMode.Create, then sets the file's timestamps. |
| Controls.RecoveryResults.TryDirectorySetTimestamps | FATXTools/Controls/RecoveryResults.cs:311-339 | Performs a retried setting of the directory's timestamps. |
| Controls.RecoveryResults.SaveDirectory | FATXTools/Controls/RecoveryResults.cs:341-355 | Creates the folder when it is absent, then saves the children, then sets the folder's timestamps. The result is `RecoverySpec.SaveDirectorySpec`. |
| Controls.RecoveryResults.CreateDirectory | FATXTools/Controls/RecoveryResults.cs:346 | Takes the next creation outcome. The result is `RecoverySpec.CreateDirectorySpec`. |
| Controls.RecoveryResults.SaveFile | FATXTools/Controls/RecoveryResults.cs:357-363 | Reads from the first cluster's offset, then writes. The result is `RecoverySpec.SaveFileSpec`. |
| Controls.RecoveryResults.Save | FATXTools/Controls/RecoveryResults.cs:365-377 | A directory goes to SaveDirectory and anything else to SaveFile, with no deletion check. The result is `RecoverySpec.SaveSpec`. |
| Controls.RecoveryResults.SaveList | FATXTools/Controls/RecoveryResults.cs:379-385 | Saves each entry in order until one ends with an exception. The result is `RecoverySpec.SaveListSpec`. |
| Controls.RecoveryResults.RecoverCurrentCluster | FATXTools/Controls/RecoveryResults.cs:465-497 | Creates the folder named after the selected node's text, unconditionally, then saves the node's group into it. The result is `RecoverySpec.RecoverClusterSpec`. The node is a cluster node. That cluster's folder is created first, and every path touched afterwards extends its path. |
| Controls.RecoveryResults.RecoverCurrentDirectory | FATXTools/Controls/RecoveryResults.cs:415-445 | Skips row 0 and saves the entry behind every other row tagged with an entry, in row order. The result is `RecoverySpec.RecoverDirectorySpec`. |

## Left out

- The WinForms user interface is not modelled. That covers PopulateListView,
  the selection, double-click and menu handlers, the "recover selected" and
  "recover all" items, and the folder dialog and its cancellation. The two
  recover items that are modelled take the chosen folder as a parameter.
  "Recover current directory" also takes the list view's row tags as a
  parameter.
- Console output, the `(float)` percentage of ReportProgress and the
  `dblSByte` rendering of FormatBytes are not modelled: they are logging and
  floating point.
- The bodies of `CountFiles`, `GetClusterChain` and `AsDateTime` are not
  part of this model. Their results are parameters. Cycle detection in cluster
  chains is not modelled either.
- The cancellation token's signalling between threads is not modelled. Only
  the answer of each poll is.
- A failed attempt leaves nothing in the trace. Partial writes before an
  exception are not modelled.
- 32-bit `uint` arithmetic on FileSize, bytesLeft and cluster numbers is not
  modelled. The model's integers are unbounded, and no value in these
  operations exceeds 32 bits unless an entry's FileSize does.
- The FileAttribute enum is not part of this model. Its flag values are taken
  as those of the FAT attribute byte (ReadOnly 0x01, Hidden 0x02, System 0x04,
  Directory 0x10, Archive 0x20).
- `Controls.RecoveryResults.TryFileWrite`: the content is computed once and
  written by every successful attempt. In the source, each attempt reads
  FileSize bytes again from the reader's current position. That position is
  not moved back between attempts, so a retried write reads the bytes that
  follow. How far a failed attempt moved the reader is not part of the model.
- `Controls.RecoveryResults.RecoverCurrentCluster` requires a selected
  top-level node. With no selection, the source throws a
  NullReferenceException. It also requires `Valid()`, the tree showing the
  dictionary, which the constructor establishes and PopulateTreeView keeps.
- A short read is not modelled. `WriteFile` in RecoveryResults ignores the
  count `Read` returns (RecoveryResults.cs:256). When the volume returns fewer
  bytes than asked, the source writes the unfilled rest of the fresh buffer,
  which is zeros. The model's `Contiguous` assumes that every read is full.
- `Controls.RecoveryResults.FormatBytes` returns None where the source
  indexes Suffix[5] and throws IndexOutOfRangeException.
- A failed directory creation uses up its outcome and changes nothing else.
  What the exception does after it leaves the export (the UI's handling) is
  not modelled.
- Paths are compared as exact strings, and "inside a folder" means that the
  path extends the folder's path by a separator and more text (`Within`).
  Entry names are not checked: a recovered name `..` or one holding `\`
  points elsewhere on the host while `Within` still holds. The host's
  case-insensitive comparison is not modelled either. `Directory.Exists`
  (RecoveryResults.cs:344, SaveContentTask.cs:197) finds `p\Foo` when asked
  for `p\foo`, while the model's `dirs` does not, so the model then uses
  up a creation outcome and records a CreateDirectory the source skips.
  Two entries whose names differ only in case land on one host file, which
  `Written` lists twice. The cluster folder is joined with `/`
  (RecoveryResults.cs:475) and the rest with `\`. These are one separator
  on the host but different strings in the model.
- A `Stalled` status means that the input sequences ran out. It stands for a
  dialog or an attempt that would still come.
