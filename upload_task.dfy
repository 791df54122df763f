/**
 * The task script itself: the module-level state of `ftpuploadtask.ts` as the
 * fields of one object, and `checkDone`, `uploadFiles`, `createRemoteDirectory`,
 * `uploadFile` and the connection callbacks as its methods. Each method changes the
 * fields exactly as the matching transition of `UploadModel` says, and keeps the
 * invariant `UploadModel.Inv`.
 */
module FtpUpload {
  import opened Paths
  import opened Targets
  import opened FileSelection
  import opened UploadModel

  /**
   * The scan of the remote listing in the `c.list` callback: whether some entry
   * has the name of the file being uploaded.
   */
  method ListingHas(names: seq<string>, name: string) returns (found: bool)
    ensures found <==> name in names
  {
    for i := 0 to |names|
      invariant name !in names[..i]
    {
      if names[i] == name {
        return true;
      }
      assert names[..i + 1] == names[..i] + [names[i]];
    }
    assert names[..|names|] == names;
    return false;
  }

  class UploadTask {
    const rootFolder: string
    const files: seq<string>
    /** What `tl.stats` says each entry is. */
    const kind: string -> Kind
    /** The remote path of each entry: the expression `uploadFiles` evaluates per entry. */
    const remoteFileOf: string -> string
    const remotePath: string
    const host: string
    const secure: bool
    const clean: bool
    const overwrite: bool
    const flatten: bool

    var phase: Phase
    var filesUploaded: nat
    var filesSkipped: nat
    var directoriesCreated: nat
    var directoriesSkipped: nat
    /** Operations issued on the connection whose callbacks have not run yet. */
    var pending: seq<Op>
    /** Every `tl.setResult` call so far, in order. */
    var reports: seq<Report>
    /** Whether `c.end()` has been called. */
    var ended: bool
    /** Whether `c.destroy()` has been called. */
    var destroyed: bool
    /** Entries whose processing ended without any counter moving. */
    ghost var dropped: nat

    /** The inputs as the state machine sees them. */
    function Cfg(): Config
    {
      Config(rootFolder, files, kind, remoteFileOf, remotePath, host, clean, overwrite, flatten)
    }

    /** The fields the callbacks change. */
    ghost function Snapshot(): State
      reads this
    {
      State(phase, filesUploaded, filesSkipped, directoriesCreated, directoriesSkipped,
            pending, reports, ended, destroyed, dropped)
    }

    ghost predicate Valid()
      reads this
    {
      Inv(Cfg(), Snapshot())
    }

    /**
     * Script start: the resolved inputs, the root-folder check, the zeroed counters
     * and the `secure` flag for `c.connect`.
     */
    constructor (rootFolder: string, rootExists: bool, files: seq<string>, kind: string -> Kind,
                 remotePath: string, host: string, protocol: string,
                 clean: bool, overwrite: bool, flatten: bool)
      ensures this.rootFolder == rootFolder && this.files == files && this.kind == kind
      ensures this.remotePath == remotePath && this.host == host
      ensures this.clean == clean && this.overwrite == overwrite && this.flatten == flatten
      ensures remoteFileOf == RemoteFiles(remotePath, rootFolder, flatten)
      ensures secure <==> protocol == FtpsProtocol
      ensures Snapshot() == Start(Cfg(), rootExists)
      ensures Valid()
    {
      this.rootFolder := rootFolder;
      this.files := files;
      this.kind := kind;
      this.remoteFileOf := RemoteFiles(remotePath, rootFolder, flatten);
      this.remotePath := remotePath;
      this.host := host;
      this.secure := protocol == FtpsProtocol;
      this.clean := clean;
      this.overwrite := overwrite;
      this.flatten := flatten;
      filesUploaded, filesSkipped, directoriesCreated, directoriesSkipped := 0, 0, 0, 0;
      pending := [];
      ended, destroyed := false, false;
      dropped := 0;
      if rootExists {
        phase := Connecting;
        reports := [];
      } else {
        // `failTask`; the `tl.stats` call of `findFiles` then throws
        phase := Crashed;
        reports := [Failed(RootMissing(rootFolder))];
      }
      new;
      StartInv(Cfg(), rootExists);
    }

    /** `failTask`: report the failure. */
    method FailTask(failure: Failure)
      modifies this`reports
      ensures reports == old(reports) + [Failed(failure)]
    {
      reports := reports + [Failed(failure)];
    }

    /** `checkDone`. */
    method CheckDone()
      modifies this`reports, this`ended
      ensures Snapshot() == CheckDoneStep(Cfg(), old(Snapshot()))
    {
      var total := filesUploaded + filesSkipped + directoriesCreated + directoriesSkipped;
      var remaining := |files| - total;
      if remaining == 0 {
        ended := true;
        reports := reports + [Succeeded(host, remotePath, filesUploaded, filesSkipped,
                                        directoriesCreated, directoriesSkipped)];
      }
    }

    /** `createRemoteDirectory`: issue `c.mkdir`. */
    method CreateRemoteDirectory(dir: string)
      modifies this`pending
      ensures pending == old(pending) + [Mkdir(dir)]
    {
      pending := pending + [Mkdir(dir)];
    }

    /** `uploadFile`: issue `c.put`. */
    method UploadFile(file: string, remoteFile: string)
      modifies this`pending
      ensures pending == old(pending) + [Put(file, remoteFile)]
    {
      pending := pending + [Put(file, remoteFile)];
    }

    /** The body of the `forEach` in `uploadFiles`, for one entry. */
    method DispatchEntry(file: string)
      modifies this`pending, this`directoriesSkipped, this`dropped, this`reports, this`ended
      ensures Snapshot() == DispatchEntryStep(Cfg(), old(Snapshot()), file)
    {
      var remoteFile := remoteFileOf(file);
      var stats := kind(file);
      if stats == Directory {
        if !flatten {
          CreateRemoteDirectory(remoteFile);
        } else {
          directoriesSkipped := directoriesSkipped + 1;
          CheckDone();
        }
      }
      if stats == File {
        if overwrite {
          UploadFile(file, remoteFile);
        } else {
          // `c.list` of the remote file's directory
          pending := pending + [List(file, remoteFile)];
        }
      }
      if stats == Other {
        dropped := dropped + 1;
      }
    }

    /** `uploadFiles`: the remote root when flattening, then every entry in order. */
    method UploadFiles()
      modifies this
      ensures Snapshot() == UploadFilesStep(Cfg(), old(Snapshot()))
    {
      ghost var s0 := Snapshot();
      if flatten {
        CreateRemoteDirectory(remotePath);
      }
      phase := Uploading;
      for i := 0 to |files|
        invariant Snapshot() == DispatchSteps(Cfg(), s0, i)
      {
        DispatchEntry(files[i]);
      }
    }

    /** The `ready` handler. */
    method OnReady()
      requires Valid() && Enabled(Snapshot(), Ready)
      modifies this
      ensures Snapshot() == ReadyStep(Cfg(), old(Snapshot()))
      ensures Valid()
    {
      ghost var s0 := Snapshot();
      if clean {
        phase := Cleaning;
        pending := pending + [Rmdir(remotePath)];
      } else {
        UploadFiles();
      }
      ReadyInv(Cfg(), s0);
    }

    /** The `c.rmdir` callback. */
    method OnRmdirDone(err: bool)
      requires Valid() && Enabled(Snapshot(), RmdirDone(err))
      modifies this
      ensures Snapshot() == RmdirDoneStep(Cfg(), old(Snapshot()), err)
      ensures Valid()
    {
      ghost var s0 := Snapshot();
      pending := [];
      if err {
        destroyed := true;
        FailTask(CleanFailed(remotePath));
      }
      UploadFiles();
      RmdirDoneInv(Cfg(), s0, err);
    }

    /** The `c.mkdir` callback of pending operation `k`. */
    method OnMkdirDone(k: nat, err: bool)
      requires Valid() && Enabled(Snapshot(), MkdirDone(k, err))
      modifies this
      ensures Snapshot() == MkdirDoneStep(Cfg(), old(Snapshot()), k, err)
      ensures Valid()
    {
      ghost var s0 := Snapshot();
      var dir := pending[k].path;
      pending := RemoveAt(pending, k);
      if err {
        ended := true;
        FailTask(MkdirFailed(dir));
      }
      if !flatten {
        directoriesCreated := directoriesCreated + 1;
      }
      assert Snapshot() == MkdirCounted(Cfg(), s0, k, err);
      CheckDone();
      MkdirDoneInv(Cfg(), s0, k, err);
    }

    /** The `c.list` callback of pending operation `k`, with the names the server listed. */
    method OnListDone(k: nat, names: seq<string>)
      requires Valid() && Enabled(Snapshot(), ListDone(k, names))
      modifies this
      ensures Snapshot() == ListDoneStep(Cfg(), old(Snapshot()), k, names)
      ensures Valid()
    {
      var found := ListingHas(names, Basename(pending[k].remoteFile));
      ListScanned(k, found);
    }

    /** The rest of the `c.list` callback once the listing has been scanned. */
    method ListScanned(k: nat, found: bool)
      requires Valid() && phase == Uploading && k < |pending| && pending[k].List?
      modifies this
      ensures Snapshot() == ListScannedStep(Cfg(), old(Snapshot()), k, found)
      ensures Valid()
    {
      ghost var s0 := Snapshot();
      if found {
        SkipListed(k);
      } else {
        UploadUnlisted(k);
      }
      ListScannedInv(Cfg(), s0, k, found);
    }

    /** A file already on the server: count it as skipped and run `checkDone`. */
    method SkipListed(k: nat)
      requires k < |pending| && pending[k].List?
      modifies this`pending, this`filesSkipped, this`reports, this`ended
      ensures Snapshot() == ListScannedStep(Cfg(), old(Snapshot()), k, true)
    {
      pending := RemoveAt(pending, k);
      filesSkipped := filesSkipped + 1;
      CheckDone();
    }

    /** A file not on the server: upload it to the same remote path. */
    method UploadUnlisted(k: nat)
      requires k < |pending| && pending[k].List?
      modifies this`pending
      ensures Snapshot() == ListScannedStep(Cfg(), old(Snapshot()), k, false)
    {
      var op := pending[k];
      pending := RemoveAt(pending, k);
      UploadFile(op.file, op.remoteFile);
    }

    /** The `c.list` callback of pending operation `k` with an error: the scan throws. */
    method OnListFailed(k: nat)
      requires Valid() && Enabled(Snapshot(), ListFailed(k))
      modifies this
      ensures Snapshot() == ListFailedStep(Cfg(), old(Snapshot()), k)
      ensures Valid()
    {
      pending := RemoveAt(pending, k);
      phase := Crashed;
    }

    /** The `c.put` callback of pending operation `k`. */
    method OnPutDone(k: nat, err: bool)
      requires Valid() && Enabled(Snapshot(), PutDone(k, err))
      modifies this
      ensures Snapshot() == PutDoneStep(Cfg(), old(Snapshot()), k, err)
      ensures Valid()
    {
      ghost var s0 := Snapshot();
      if err {
        PutFailed(k);
      } else {
        PutSucceeded(k);
      }
      PutDoneInv(Cfg(), s0, k, err);
    }

    /** The `c.put` callback with an error: end the connection and fail the task, counting nothing. */
    method PutFailed(k: nat)
      requires k < |pending| && pending[k].Put?
      modifies this`pending, this`ended, this`reports, this`dropped
      ensures Snapshot() == PutDoneStep(Cfg(), old(Snapshot()), k, true)
    {
      var op := pending[k];
      pending := RemoveAt(pending, k);
      ended := true;
      FailTask(UploadFailed(op.remoteFile));
      dropped := dropped + 1;
    }

    /** The `c.put` callback without an error: count the file and run `checkDone`. */
    method PutSucceeded(k: nat)
      requires k < |pending| && pending[k].Put?
      modifies this`pending, this`filesUploaded, this`reports, this`ended
      ensures Snapshot() == PutDoneStep(Cfg(), old(Snapshot()), k, false)
    {
      pending := RemoveAt(pending, k);
      filesUploaded := filesUploaded + 1;
      CheckDone();
    }

    /** Runs the callback of whatever event the connection delivers. */
    method Deliver(e: Event)
      requires Valid() && Enabled(Snapshot(), e)
      modifies this
      ensures Snapshot() == Handle(Cfg(), old(Snapshot()), e)
      ensures Valid()
    {
      match e
      case Ready => OnReady();
      case RmdirDone(err) => OnRmdirDone(err);
      case MkdirDone(k, err) => OnMkdirDone(k, err);
      case ListDone(k, names) => OnListDone(k, names);
      case ListFailed(k) => OnListFailed(k);
      case PutDone(k, err) => OnPutDone(k, err);
    }
  }

  /**
   * The script from the top: the root folder resolved from its input, its existence
   * checked, the entries selected by `findFiles` when it exists, and the task state
   * set up for the connection.
   */
  method Launch(repoRoot: string, rootInput: string, rootExists: bool, kind: string -> Kind,
                listing: seq<string>, patterns: seq<string>, matches: (string, string) -> bool,
                remotePath: string, host: string, protocol: string,
                clean: bool, overwrite: bool, flatten: bool)
    returns (task: UploadTask)
    ensures task.rootFolder == RootFolder(repoRoot, rootInput)
    ensures rootExists ==> IsSelection(task.rootFolder, kind, listing, patterns, matches, task.files)
    ensures !rootExists ==> task.files == []
    ensures task.kind == kind && task.remotePath == remotePath && task.host == host
    ensures task.clean == clean && task.overwrite == overwrite && task.flatten == flatten
    ensures task.remoteFileOf == RemoteFiles(remotePath, task.rootFolder, flatten)
    ensures task.secure <==> protocol == FtpsProtocol
    ensures task.Snapshot() == Start(task.Cfg(), rootExists) && task.Valid()
  {
    var rootFolder := RootFolder(repoRoot, rootInput);
    var files: seq<string> := [];
    if rootExists {
      files := FindFiles(rootFolder, kind, listing, patterns, matches);
    }
    task := new UploadTask(rootFolder, rootExists, files, kind, remotePath, host, protocol,
                           clean, overwrite, flatten);
  }
}
