# FTP upload task — a verified model

This project models the FTP upload build task (`Tasks/FtpUpload/ftpuploadtask.ts`).
The task mirrors a local folder, or a single file, onto an FTP server. It has three parts:

- **File selection** (`findFiles`). It decides which local paths to process from the root
  folder, the recursive listing of that folder and the file patterns. A root that is a
  file gives exactly its parent and itself. A pattern that is exactly `*` gives the whole
  listing. Otherwise each pattern is normalized, joined onto the root and matched against
  the listing. Every match is collected in a sorted, duplicate-free set, and a newly added
  file also adds its normalized parent directory.
- **Path derivation.** `makeAbsolute` resolves the root folder. Each entry's remote path
  is `join(remotePath, basename(file))` with `flatten`, and otherwise
  `join(remotePath, file.substring(rootFolder.length))`. The connection is `secure`
  exactly for the `ftps:` scheme.
- **The upload state machine.** Four counters (`filesUploaded`, `filesSkipped`,
  `directoriesCreated`, `directoriesSkipped`) are moved by the completion callbacks of the
  operations issued on the connection. `checkDone` ends the connection and reports
  success once they add up to the number of selected entries.

Layout:

- `paths.dfy` (module `Paths`): the POSIX behaviour of Node's `path.normalize`, `join`,
  `dirname`, `basename` and `isAbsolute` over strings; `makeAbsolute`.
- `sorted_set.dfy` (module `SortedSets`): the ordered string set used by `findFiles`, as
  a class whose `Add` inserts in place and says whether the element was new.
- `file_selection.dfy` (module `FileSelection`): `findFiles` as a method with its loops,
  proved against the predicate `IsSelection`.
- `targets.dfy` (module `Targets`): the remote path of an entry and the `ftps:` scheme
  constant. The `secure` flag itself is set by the `UploadTask` constructor.
- `upload_model.dfy` (module `UploadModel`): each callback as a function from state to
  state; the invariant that every entry is counted once, or is behind one pending
  operation, or was dropped.
- `upload_task.dfy` (module `FtpUpload`): the script's module-level state as a class
  `UploadTask`. Its methods are `checkDone`, `uploadFiles`, `createRemoteDirectory`,
  `uploadFile` and the callbacks. Each one changes the fields as the matching
  `UploadModel` transition says and keeps the invariant.
- `upload_properties.dfy` (module `UploadProperties`): properties across callbacks.

The callbacks run one at a time, so the server's completions are modelled as a sequence
of events. The events may come in any order and with any outcome. Each event names the
pending operation it completes.

Behaviours of the code a reader may not expect, which the model keeps:

- A failed clean destroys the connection and fails the task, and `uploadFiles` still runs
  (lines 236-241).
- A failed `mkdir` fails the task, and the directory is then still counted as created and
  `checkDone` still runs (lines 207-215). Success can therefore be reported after a
  failure.
- With `flatten`, the root `mkdir` callback runs `checkDone` without counting anything
  (lines 158-161, 212-215). If it completes last, success is reported twice. When every
  selected entry is a directory, `uploadFiles` itself reports success and calls
  `c.end()` (line 137); if the client still delivers the root `mkdir`'s completion after
  that, success is reported again.
- A failed `list` leaves its listing undefined, so the `for ... of` loop throws
  (lines 188-189). The model stops the script there (phase `Crashed`).
- Without `flatten`, an empty selection issues nothing and never calls `checkDone`, so no
  result is reported (line 163).
- A missing root folder is reported by `failTask`. `tl.stats` then throws in `findFiles`
  (lines 42-44, 53), which the model also treats as `Crashed`.

## Model

| member | source | states |
|---|---|---|
| Paths.MakeAbsolute | Tasks/FtpUpload/ftpuploadtask.ts:17-26 | an absolute input comes back unchanged; a relative one is joined onto the repository root; an absolute repository root gives an absolute result |
| Paths.RootFolder | Tasks/FtpUpload/ftpuploadtask.ts:41 | the root folder is the input normalized and made absolute; an absolute input gives its normalization |
| Paths.Normalize | Tasks/FtpUpload/ftpuploadtask.ts:41 | `path.normalize` never returns an empty string and keeps a path absolute exactly when it was absolute |
| Paths.Join | Tasks/FtpUpload/ftpuploadtask.ts:22 | `path.join` of a non-empty first argument is absolute exactly when that argument is |
| Paths.Dirname | Tasks/FtpUpload/ftpuploadtask.ts:57 | `path.dirname` is never empty and is absolute exactly when its argument is |
| Paths.Basename | Tasks/FtpUpload/ftpuploadtask.ts:166 | `path.basename` contains no separator |
| Paths.Substring | Tasks/FtpUpload/ftpuploadtask.ts:167 | `substring(start)` is the rest of the string after its first `start` characters, or empty past the end |
| Paths.BasenameOfJoin | Tasks/FtpUpload/ftpuploadtask.ts:166 | joining a name onto any directory gives a path whose basename is that name |
| Paths.JoinIgnoresLeadingSep | Tasks/FtpUpload/ftpuploadtask.ts:167 | a leading separator on the second argument makes no difference to `join` |
| Paths.UnsplitSplit | Tasks/FtpUpload/ftpuploadtask.ts:41 | splitting a path at its separators and writing the segments out again gives the path back |
| Paths.SplitUnsplit | Tasks/FtpUpload/ftpuploadtask.ts:41 | writing out separator-free segments and splitting again gives the segments back |
| SortedSets.AscendingHasNoDuplicates | Tasks/FtpUpload/ftpuploadtask.ts:86-88 | a strictly ascending sequence holds no string twice |
| SortedSets.BelowTotal | Tasks/FtpUpload/ftpuploadtask.ts:112 | any two different strings are ordered one way or the other |
| SortedSets.BelowTransitive | Tasks/FtpUpload/ftpuploadtask.ts:112 | the string order is transitive |
| SortedSets.SortedSet.constructor | Tasks/FtpUpload/ftpuploadtask.ts:88 | a new set is empty and ordered |
| SortedSets.SortedSet.Add | Tasks/FtpUpload/ftpuploadtask.ts:100 | `add` keeps the elements strictly ascending, returns true exactly when the element was absent, leaves the set unchanged when it was present, and otherwise adds exactly that element |
| SortedSets.SortedSet.Sorted | Tasks/FtpUpload/ftpuploadtask.ts:112 | `sorted()` returns exactly the elements, strictly ascending |
| FileSelection.MatchList | Tasks/FtpUpload/ftpuploadtask.ts:95 | `tl.match` returns exactly the listing entries the glob accepts |
| FileSelection.NormalizeEach | Tasks/FtpUpload/ftpuploadtask.ts:99 | each match is normalized, position by position |
| FileSelection.NormalizedMatchesAre | Tasks/FtpUpload/ftpuploadtask.ts:91-99 | the normalized matches of one pattern are exactly the normalized listing entries its joined glob accepts |
| FileSelection.CandidatesAreMatches | Tasks/FtpUpload/ftpuploadtask.ts:90-99 | the paths the selection loop visits are exactly those some pattern's glob accepts |
| FileSelection.AddMatch | Tasks/FtpUpload/ftpuploadtask.ts:99-109 | a match already in the set changes nothing; a new match is added, together with its normalized parent when it is a file, and nothing else |
| FileSelection.FindFiles | Tasks/FtpUpload/ftpuploadtask.ts:50-113 | a root that is a file gives exactly `[parent, root]` whatever the patterns; a `*` pattern anywhere gives the listing unchanged; otherwise the result is strictly ascending (so duplicate-free), holds every match, holds only matches and parents of matched files, and holds the parent of every matched file that is not itself the parent of a matched file |
| FileSelection.SelectionHasParents | Tasks/FtpUpload/ftpuploadtask.ts:103-107 | when no matched file is the parent of another matched file, the selection holds the parent of every matched file |
| FileSelection.CandidatesPrefix | Tasks/FtpUpload/ftpuploadtask.ts:90 | the matches of the first patterns come first among the matches of all of them |
| FileSelection.CollectedStep | Tasks/FtpUpload/ftpuploadtask.ts:98-110 | visiting one more match keeps the loop invariant, whether or not it was new |
| FileSelection.Parent | Tasks/FtpUpload/ftpuploadtask.ts:57 | the normalized parent directory is never empty and is absolute exactly when the path is |
| FileSelection.PatternPath | Tasks/FtpUpload/ftpuploadtask.ts:91 | the glob handed to the matcher, the pattern normalized and joined onto a non-empty root, is absolute exactly when the root is |
| Targets.RemoteFile | Tasks/FtpUpload/ftpuploadtask.ts:165-167 | the remote path is never empty and is absolute exactly when `remotePath` is; with `flatten` it is the entry's basename joined onto `remotePath`; otherwise it is what follows the root's length in the entry joined onto `remotePath`, or `remotePath` alone for an entry no longer than the root |
| Targets.FlattenKeepsName | Tasks/FtpUpload/ftpuploadtask.ts:165-166 | with `flatten` the remote entry has the local entry's name |
| Targets.FlattenIgnoresDepth | Tasks/FtpUpload/ftpuploadtask.ts:165-166 | with `flatten` the remote path is `join(remotePath, name)` whatever directory the entry is in, so same-named entries collide |
| Targets.KeepsRelativePath | Tasks/FtpUpload/ftpuploadtask.ts:167 | without `flatten` an entry `root/rel` goes to `join(remotePath, rel)` |
| Targets.DirectChildSameInBothModes | Tasks/FtpUpload/ftpuploadtask.ts:165-167 | an entry directly inside the root goes to the same remote path in both modes |
| Targets.ShortEntryTargetsRemoteRoot | Tasks/FtpUpload/ftpuploadtask.ts:167 | without `flatten` an entry no longer than the root (the single-file parent, or the root itself) goes to the normalized remote root |
| UploadModel.OpsFor | Tasks/FtpUpload/ftpuploadtask.ts:172-200 | each entry issues one operation standing for it, except a directory when flattening and anything that is neither a file nor a directory, which issue none |
| UploadModel.DispatchAccountsEveryEntry | Tasks/FtpUpload/ftpuploadtask.ts:163-201 | after the `forEach`, every entry is behind one operation, or is a directory skipped by `flatten`, or is neither file nor directory |
| UploadModel.InvBoundsTotal | Tasks/FtpUpload/ftpuploadtask.ts:127-129 | under the invariant the four counters never add up to more than the number of entries |
| UploadModel.StartInv | Tasks/FtpUpload/ftpuploadtask.ts:42-44 | the script starts with zero counters and satisfies the invariant; a missing root folder stops it |
| UploadModel.CheckDoneReportsWhenAllCounted | Tasks/FtpUpload/ftpuploadtask.ts:127-148 | `checkDone` ends the connection and adds one success report, with the host, path and counters, exactly when the counters add up to the number of entries, and otherwise changes nothing |
| UploadModel.DispatchClosedForm | Tasks/FtpUpload/ftpuploadtask.ts:151-202 | `uploadFiles` issues the root `mkdir` when flattening and then each entry's operation in list order, counts only skipped directories, and reports only when flattening with every entry a directory |
| UploadModel.UploadFilesInv | Tasks/FtpUpload/ftpuploadtask.ts:151-202 | `uploadFiles` establishes the invariant |
| UploadModel.AddFailureKeepsAccount | Tasks/FtpUpload/ftpuploadtask.ts:28-30 | a failure report keeps every success report accounted for |
| UploadModel.ReadyInv | Tasks/FtpUpload/ftpuploadtask.ts:233-247 | the `ready` handler keeps the invariant |
| UploadModel.RmdirDoneInv | Tasks/FtpUpload/ftpuploadtask.ts:236-241 | the clean callback keeps the invariant, whatever its outcome |
| UploadModel.MkdirDoneInv | Tasks/FtpUpload/ftpuploadtask.ts:206-216 | the `mkdir` callback keeps the invariant, whatever its outcome |
| UploadModel.CheckDoneInv | Tasks/FtpUpload/ftpuploadtask.ts:127-148 | `checkDone` keeps the invariant |
| UploadModel.ListSkipInv | Tasks/FtpUpload/ftpuploadtask.ts:190-195 | counting a listed file as skipped keeps the invariant |
| UploadModel.ListUploadInv | Tasks/FtpUpload/ftpuploadtask.ts:197 | replacing the `list` by a `put` for the same file keeps the invariant |
| UploadModel.ListScannedInv | Tasks/FtpUpload/ftpuploadtask.ts:188-198 | the `list` callback keeps the invariant, whether or not the file was found |
| UploadModel.ListFailedInv | Tasks/FtpUpload/ftpuploadtask.ts:188-189 | a failed `list` stops the script with the counters in bounds |
| UploadModel.PutDoneInv | Tasks/FtpUpload/ftpuploadtask.ts:221-230 | the `put` callback keeps the invariant, whatever its outcome |
| UploadModel.HandleInv | Tasks/FtpUpload/ftpuploadtask.ts:204-247 | every callback keeps the invariant |
| UploadModel.RunInv | Tasks/FtpUpload/ftpuploadtask.ts:204-247 | the invariant holds after any sequence of completions |
| UploadModel.CountersBoundedFromStart | Tasks/FtpUpload/ftpuploadtask.ts:122-148 | from the start, in any order of completions, the counters never add up to more than the number of entries, and every success report counts every entry |
| UploadProperties.CheckDoneAdvances | Tasks/FtpUpload/ftpuploadtask.ts:127-148 | `checkDone` lowers no counter and only appends reports |
| UploadProperties.DispatchAdvances | Tasks/FtpUpload/ftpuploadtask.ts:163-201 | the `forEach` lowers no counter at any point |
| UploadProperties.ReadyAdvances | Tasks/FtpUpload/ftpuploadtask.ts:233-247 | the `ready` handler lowers no counter |
| UploadProperties.RmdirDoneAdvances | Tasks/FtpUpload/ftpuploadtask.ts:236-241 | the clean callback lowers no counter |
| UploadProperties.MkdirDoneAdvances | Tasks/FtpUpload/ftpuploadtask.ts:206-216 | the `mkdir` callback lowers no counter |
| UploadProperties.ListScannedAdvances | Tasks/FtpUpload/ftpuploadtask.ts:188-198 | the `list` callback lowers no counter |
| UploadProperties.PutDoneAdvances | Tasks/FtpUpload/ftpuploadtask.ts:221-230 | the `put` callback lowers no counter |
| UploadProperties.HandleAdvances | Tasks/FtpUpload/ftpuploadtask.ts:204-247 | no callback lowers a counter, removes a report or reopens the connection |
| UploadProperties.RunAdvances | Tasks/FtpUpload/ftpuploadtask.ts:122-125 | across any sequence of completions the counters only increase |
| UploadProperties.CheckDoneSilentWhileShort | Tasks/FtpUpload/ftpuploadtask.ts:136 | while the counters fall short, `checkDone` changes nothing |
| UploadProperties.MkdirDoneAfterDrop | Tasks/FtpUpload/ftpuploadtask.ts:206-216 | once an entry is dropped, the `mkdir` callback reports no success |
| UploadProperties.ListScannedAfterDrop | Tasks/FtpUpload/ftpuploadtask.ts:188-198 | once an entry is dropped, the `list` callback reports no success |
| UploadProperties.PutDoneAfterDrop | Tasks/FtpUpload/ftpuploadtask.ts:221-230 | once an entry is dropped, the `put` callback reports no success |
| UploadProperties.DroppedCallbackReportsNoSuccess | Tasks/FtpUpload/ftpuploadtask.ts:221-229 | once an entry is dropped, any callback only appends failure reports |
| UploadProperties.DroppedRunReportsNoSuccess | Tasks/FtpUpload/ftpuploadtask.ts:221-229 | after a failed upload or an entry that is neither file nor directory, no sequence of completions reports success |
| UploadProperties.OtherEntryIsDropped | Tasks/FtpUpload/ftpuploadtask.ts:170-181 | an entry that is neither file nor directory is dropped by `uploadFiles` without a report |
| UploadProperties.CountKindsDisjoint | Tasks/FtpUpload/ftpuploadtask.ts:172-181 | entries of two different kinds together number at most the entries |
| UploadProperties.AllCountedIsFinal | Tasks/FtpUpload/ftpuploadtask.ts:136-147 | without `flatten`, once everything is counted nothing is pending and no callback can follow |
| UploadProperties.CheckDoneSuccessCount | Tasks/FtpUpload/ftpuploadtask.ts:136-147 | `checkDone` adds one success report when everything is counted and none otherwise |
| UploadProperties.UploadFilesSilentWithoutFlatten | Tasks/FtpUpload/ftpuploadtask.ts:151-202 | without `flatten`, `uploadFiles` reports nothing |
| UploadProperties.ReadyAddsNoSuccess | Tasks/FtpUpload/ftpuploadtask.ts:233-247 | without `flatten`, the `ready` handler reports nothing |
| UploadProperties.RmdirDoneAddsNoSuccess | Tasks/FtpUpload/ftpuploadtask.ts:236-241 | without `flatten`, the clean callback adds no success report |
| UploadProperties.MkdirDoneSuccessCount | Tasks/FtpUpload/ftpuploadtask.ts:206-216 | the `mkdir` callback adds at most one success report, and only with everything counted |
| UploadProperties.ListScannedSuccessCount | Tasks/FtpUpload/ftpuploadtask.ts:188-198 | the `list` callback adds at most one success report, and only with everything counted |
| UploadProperties.PutDoneSuccessCount | Tasks/FtpUpload/ftpuploadtask.ts:221-230 | the `put` callback adds at most one success report, and only with everything counted |
| UploadProperties.HandleKeepsSuccessFinal | Tasks/FtpUpload/ftpuploadtask.ts:127-148 | without `flatten`, a success report means everything is counted, and no callback adds a second one |
| UploadProperties.AtMostOneSuccessWithoutFlatten | Tasks/FtpUpload/ftpuploadtask.ts:127-148 | without `flatten`, any sequence of completions reports success at most once |
| UploadProperties.AtMostOneSuccessFromStart | Tasks/FtpUpload/ftpuploadtask.ts:122-148 | without `flatten`, the whole script reports success at most once, whatever the server does |
| UploadProperties.UploadFilesCompletingReports | Tasks/FtpUpload/ftpuploadtask.ts:175-178 | an `uploadFiles` that counts every entry (all directories, with `flatten`) reports success exactly once |
| UploadProperties.RmdirDoneCompletingReports | Tasks/FtpUpload/ftpuploadtask.ts:236-241 | a clean callback whose `uploadFiles` counts every entry reports success exactly once |
| UploadProperties.MkdirDoneCompletingReports | Tasks/FtpUpload/ftpuploadtask.ts:206-216 | a `mkdir` callback after which everything is counted reports success exactly once, failed or not |
| UploadProperties.ListScannedCompletingReports | Tasks/FtpUpload/ftpuploadtask.ts:190-195 | a `list` callback that completes the count reports success exactly once |
| UploadProperties.PutDoneCompletingReports | Tasks/FtpUpload/ftpuploadtask.ts:225-228 | a `put` callback that completes the count reports success exactly once |
| UploadProperties.CompletingCallbackReports | Tasks/FtpUpload/ftpuploadtask.ts:127-148 | whichever callback brings the counters up to the number of entries adds exactly one success report |
| UploadProperties.CompletingRunReports | Tasks/FtpUpload/ftpuploadtask.ts:127-148 | a sequence of completions that takes the counters up to the number of entries reports success at least once on the way |
| UploadProperties.QuiescentIsComplete | Tasks/FtpUpload/ftpuploadtask.ts:127-148 | while uploading, nothing pending and nothing dropped means every entry is counted |
| UploadProperties.QuiescentRunReports | Tasks/FtpUpload/ftpuploadtask.ts:122-148 | a run from a state with entries still uncounted and no success yet (the start of the script), ending with nothing pending and nothing dropped, has reported success exactly once without `flatten` and at least once with it |
| UploadProperties.StartIsShortOfComplete | Tasks/FtpUpload/ftpuploadtask.ts:120-125 | the start of the script with a non-empty selection satisfies the invariant, has nothing counted and no success reported |
| UploadProperties.FromStartReportsOnce | Tasks/FtpUpload/ftpuploadtask.ts:120-148 | from the start of the script with a non-empty selection, a run that ends uploading with nothing pending and nothing dropped has reported success exactly once without `flatten`, and at least once with it |
| UploadProperties.FailedCleanStillUploads | Tasks/FtpUpload/ftpuploadtask.ts:236-241 | a failed clean destroys the connection and fails the task, and every entry's operation is still issued |
| UploadProperties.MkdirFailureStillCounted | Tasks/FtpUpload/ftpuploadtask.ts:207-215 | a failed `mkdir` is reported and then still counted as created, and success follows |
| UploadProperties.FlattenRootMkdirReportsAgain | Tasks/FtpUpload/ftpuploadtask.ts:158-161 | with `flatten`, a root `mkdir` completing after the last upload reports success a second time |
| UploadProperties.FlattenDirectoriesReportTwice | Tasks/FtpUpload/ftpuploadtask.ts:158-178 | with `flatten` and only directories selected, from the connecting phase with nothing counted, the `ready` handler and the root `mkdir` append the same success report twice and leave nothing pending |
| UploadProperties.FlattenDirectoriesUpload | Tasks/FtpUpload/ftpuploadtask.ts:151-202 | with `flatten` and only directories, `uploadFiles` counts every entry as a skipped directory, reports success and leaves only the root `mkdir` pending |
| UploadProperties.RootMkdirReportsAgain | Tasks/FtpUpload/ftpuploadtask.ts:212-215 | with `flatten`, everything counted and only the root `mkdir` pending, its callback reports the same success again |
| UploadProperties.ReadyUploadsAtOnce | Tasks/FtpUpload/ftpuploadtask.ts:243-246 | without `clean`, the `ready` handler is `uploadFiles` |
| UploadProperties.FlattenEmptySelectionReports | Tasks/FtpUpload/ftpuploadtask.ts:158-161 | with `flatten` and nothing selected, the root `mkdir` reports success with zero counters |
| UploadProperties.EmptySelectionNeverReports | Tasks/FtpUpload/ftpuploadtask.ts:163 | without `flatten` and with nothing selected, nothing is issued and nothing is reported |
| UploadProperties.ListDoneSkipsIffListed | Tasks/FtpUpload/ftpuploadtask.ts:186-198 | with overwrite off, a file is counted as skipped exactly when the remote listing has an entry with its remote basename; otherwise it is uploaded to the same remote path, with no report and no count |
| UploadProperties.FlattenSkipsDirectoryWithoutMkdir | Tasks/FtpUpload/ftpuploadtask.ts:175-178 | with `flatten` a directory entry issues nothing, adds one to `directoriesSkipped`, and reports exactly when that completes the count |
| UploadProperties.FlattenMkdirCountsNothing | Tasks/FtpUpload/ftpuploadtask.ts:212-214 | with `flatten` the `mkdir` callback counts nothing |
| UploadProperties.FailedUploadCountsNothing | Tasks/FtpUpload/ftpuploadtask.ts:221-224 | a failed `put` ends the connection, fails the task with its remote path, and counts nothing |
| FtpUpload.ListingHas | Tasks/FtpUpload/ftpuploadtask.ts:189-196 | the scan of the remote listing finds the name exactly when some entry has it |
| FtpUpload.UploadTask.constructor | Tasks/FtpUpload/ftpuploadtask.ts:41-48 | the task starts with its inputs, zero counters, the remote-path mapping of its mode, and a `secure` flag that is on exactly for the `ftps:` scheme |
| FtpUpload.UploadTask.FailTask | Tasks/FtpUpload/ftpuploadtask.ts:28-30 | `failTask` appends one failure report |
| FtpUpload.UploadTask.CheckDone | Tasks/FtpUpload/ftpuploadtask.ts:127-148 | `checkDone` changes the state as `CheckDoneStep` says |
| FtpUpload.UploadTask.CreateRemoteDirectory | Tasks/FtpUpload/ftpuploadtask.ts:204-206 | `createRemoteDirectory` issues one `mkdir` |
| FtpUpload.UploadTask.UploadFile | Tasks/FtpUpload/ftpuploadtask.ts:219-221 | `uploadFile` issues one `put` |
| FtpUpload.UploadTask.DispatchEntry | Tasks/FtpUpload/ftpuploadtask.ts:164-200 | the `forEach` body changes the state as `DispatchEntryStep` says |
| FtpUpload.UploadTask.UploadFiles | Tasks/FtpUpload/ftpuploadtask.ts:151-202 | `uploadFiles` changes the state as `UploadFilesStep` says |
| FtpUpload.UploadTask.OnReady | Tasks/FtpUpload/ftpuploadtask.ts:233-247 | the `ready` handler follows `ReadyStep` and keeps the invariant |
| FtpUpload.UploadTask.OnRmdirDone | Tasks/FtpUpload/ftpuploadtask.ts:236-241 | the clean callback follows `RmdirDoneStep` and keeps the invariant |
| FtpUpload.UploadTask.OnMkdirDone | Tasks/FtpUpload/ftpuploadtask.ts:206-216 | the `mkdir` callback follows `MkdirDoneStep` and keeps the invariant |
| FtpUpload.UploadTask.OnListDone | Tasks/FtpUpload/ftpuploadtask.ts:188-198 | the `list` callback follows `ListDoneStep` and keeps the invariant |
| FtpUpload.UploadTask.ListScanned | Tasks/FtpUpload/ftpuploadtask.ts:190-197 | the rest of the `list` callback follows `ListScannedStep` and keeps the invariant |
| FtpUpload.UploadTask.SkipListed | Tasks/FtpUpload/ftpuploadtask.ts:190-195 | a file found in the listing is counted as skipped and `checkDone` runs, as `ListScannedStep` says |
| FtpUpload.UploadTask.UploadUnlisted | Tasks/FtpUpload/ftpuploadtask.ts:197 | a file missing from the listing is uploaded to the same remote path, as `ListScannedStep` says |
| FtpUpload.UploadTask.OnListFailed | Tasks/FtpUpload/ftpuploadtask.ts:188-189 | a failed `list` stops the script and keeps the invariant |
| FtpUpload.UploadTask.OnPutDone | Tasks/FtpUpload/ftpuploadtask.ts:221-230 | the `put` callback follows `PutDoneStep` and keeps the invariant |
| FtpUpload.UploadTask.PutFailed | Tasks/FtpUpload/ftpuploadtask.ts:222-224 | a failed `put` ends the connection and fails the task, counting nothing, as `PutDoneStep` says |
| FtpUpload.UploadTask.PutSucceeded | Tasks/FtpUpload/ftpuploadtask.ts:225-228 | a successful `put` counts the file and runs `checkDone`, as `PutDoneStep` says |
| FtpUpload.UploadTask.Deliver | Tasks/FtpUpload/ftpuploadtask.ts:204-247 | any completion runs its callback, as `Handle` says, keeping the invariant |
| FtpUpload.Launch | Tasks/FtpUpload/ftpuploadtask.ts:41-252 | the script resolves the root folder, selects entries with `findFiles` when the root exists (none otherwise), starts the task with zero counters, and connects with `secure` on exactly for the `ftps:` scheme |

## Left out

- Reading inputs, the endpoint URL and credentials (`tl.getInput`, `tl.getPathInput`,
  `tl.getBoolInput`, `tl.getDelimitedInput`, `tl.getEndpointUrl`,
  `tl.getEndpointAuthorization`, `tl.getVariable`): task-library calls; their results are
  parameters. The URL's scheme is the `protocol` parameter.
- The FTP client (`connect`, `list`, `mkdir`, `rmdir`, `put`, `end`, `destroy`): network
  I/O. Issued operations are a pending list. Their outcomes arrive as events. `end` and
  `destroy` are recorded as flags.
- Completions after `c.end()` or `c.destroy()`: the model still delivers the completion of
  every pending operation. Whether the `ftp` client calls those callbacks once the
  connection is ended or destroyed is not modelled; the client is not part of this model.
- The client's `'error'` event: only `'ready'` has a listener (line 233), so a failed
  connect or a socket error throws out of the script. The model has no event for it.
- The real interleaving of callbacks: completions are a sequential event stream, in any
  order. Completions that could arrive after the script has thrown are not delivered.
- Glob matching (`minimatch` with `matchBase`, and `nocase` on Windows): an opaque
  `matches(path, glob)` parameter.
- `tl.stats`, `tl.find` and `tl.exist`: a `kind` function, a listing sequence and a
  `rootExists` flag.
- Windows path semantics: `path` is modelled with its POSIX behaviour only.
- The `.trim()` of the root-folder input (line 41) and of `remotePath` (line 115): the
  parameters stand for the already trimmed values.
- SortedSets.Below: strings are compared character by character (Unicode code points),
  while JavaScript's `<` compares UTF-16 code units. The two orders agree on names made
  only of characters up to U+FFFF; names holding characters above it may come out of
  `findFiles` in a different order than the task produces.
- `tl.debug` logging, including the debug line that prints `filesUploaded` under the
  label `filesSkipped`: diagnostics only.
- The unused `createdDirectories` set in `uploadFiles`: it is never read or written.
- The message strings of `setResult`: reports carry the failing path or the host, path
  and counters instead of text.
- `Tests/L0/SSH/_suite.ts` is not part of this model: it tests a different task.
- FileSelection.FindFiles: the parent-closure guarantee excludes every matched file that
  is itself the parent of a matched file. The code leaves out the parent of such a file
  only when it was first added as a parent; the contract does not tell the two orders
  apart. `SelectionHasParents` gives full closure when no matched file is the parent of
  another.
