/**
 * The upload as a state machine: the four progress counters and `checkDone`, the
 * per-entry dispatch of `uploadFiles`, and the completion callbacks of the
 * operations it issues on the FTP connection. Every callback runs to completion
 * before the next one starts, so the connection's completions arrive as a sequence
 * of events, in whatever order and with whatever outcome the server gives them.
 * Each callback is a function from the state before it to the state after it; the
 * class in `upload_task.dfy` changes its fields as these functions say.
 */
module UploadModel {
  import opened Paths
  import opened Targets
  import opened FileSelection

  /** An operation issued on the connection whose completion callback has not run yet. */
  datatype Op =
    | Rmdir(path: string)
    | Mkdir(path: string)
    | List(file: string, remoteFile: string)
    | Put(file: string, remoteFile: string)

  /** Why the task was marked failed. */
  datatype Failure =
    | RootMissing(root: string)
    | CleanFailed(path: string)
    | MkdirFailed(dir: string)
    | UploadFailed(remoteFile: string)

  /** One call of `tl.setResult`. */
  datatype Report =
    | Succeeded(host: string, path: string, filesUploaded: nat, filesSkipped: nat,
                directoriesCreated: nat, directoriesSkipped: nat)
    | Failed(failure: Failure)

  /**
   * Where the task stands: waiting for the connection, removing the remote folder,
   * uploading, or stopped by an uncaught exception.
   */
  datatype Phase = Connecting | Cleaning | Uploading | Crashed

  /**
   * The resolved inputs and the selected entries; they do not change during the run.
   * `kind` is what `tl.stats` says each entry is, and `remoteFile` maps each entry to
   * its remote path (`Targets.RemoteFile` for the task's inputs).
   */
  datatype Config = Config(rootFolder: string, files: seq<string>, kind: string -> Kind,
                           remoteFile: string -> string, remotePath: string, host: string,
                           clean: bool, overwrite: bool, flatten: bool)

  /**
   * What the callbacks change. `ended` and `destroyed` record calls of `c.end()` and
   * `c.destroy()`; `dropped` counts the entries whose processing ended without any
   * counter moving (neither file nor directory, or a failed upload).
   */
  datatype State = State(phase: Phase,
                         filesUploaded: nat, filesSkipped: nat,
                         directoriesCreated: nat, directoriesSkipped: nat,
                         pending: seq<Op>, reports: seq<Report>,
                         ended: bool, destroyed: bool, dropped: nat)

  /** A completion delivered by the connection. `k` is the index of the pending operation it completes. */
  datatype Event =
    | Ready
    | RmdirDone(err: bool)
    | MkdirDone(k: nat, err: bool)
    | ListDone(k: nat, names: seq<string>)
    | ListFailed(k: nat)
    | PutDone(k: nat, err: bool)

  /** The `total` that `checkDone` computes. */
  function Total(s: State): nat
  {
    s.filesUploaded + s.filesSkipped + s.directoriesCreated + s.directoriesSkipped
  }

  /** The success report `checkDone` emits in state `s`. */
  function SuccessReport(c: Config, s: State): Report
  {
    Succeeded(c.host, c.remotePath, s.filesUploaded, s.filesSkipped, s.directoriesCreated, s.directoriesSkipped)
  }

  /** Whether a pending operation stands for one entry of the file list. */
  predicate IsItemOp(op: Op, flatten: bool)
  {
    op.List? || op.Put? || (op.Mkdir? && !flatten)
  }

  /** No clean operation among `ops`. */
  predicate NoClean(ops: seq<Op>)
  {
    forall op :: op in ops ==> !op.Rmdir?
  }

  /** How many pending operations stand for an entry of the file list. */
  function Outstanding(ops: seq<Op>, flatten: bool): (n: nat)
    ensures n <= |ops|
  {
    if |ops| == 0 then 0
    else Outstanding(ops[..|ops| - 1], flatten) + (if IsItemOp(ops[|ops| - 1], flatten) then 1 else 0)
  }

  /** Counting item operations distributes over concatenation. */
  lemma {:induction false} OutstandingConcat(a: seq<Op>, b: seq<Op>, flatten: bool)
    ensures Outstanding(a + b, flatten) == Outstanding(a, flatten) + Outstanding(b, flatten)
    decreases |b|
  {
    if |b| == 0 {
      assert a + b == a;
    } else {
      var init := b[..|b| - 1];
      OutstandingConcat(a, init, flatten);
      assert (a + b)[..|a + b| - 1] == a + init;
    }
  }

  /** The pending operations without the one at index `k`. */
  function RemoveAt(ops: seq<Op>, k: nat): (r: seq<Op>)
    requires k < |ops|
    ensures |r| == |ops| - 1
    ensures forall op :: op in r ==> op in ops
  {
    ops[..k] + ops[k + 1..]
  }

  /** Removing one operation removes its share of the count, and nothing else. */
  lemma OutstandingRemoveAt(ops: seq<Op>, k: nat, flatten: bool)
    requires k < |ops|
    ensures Outstanding(RemoveAt(ops, k), flatten) + (if IsItemOp(ops[k], flatten) then 1 else 0)
            == Outstanding(ops, flatten)
  {
    assert ops == ops[..k] + [ops[k]] + ops[k + 1..];
    OutstandingConcat(ops[..k], ops[k + 1..], flatten);
    OutstandingConcat(ops[..k] + [ops[k]], ops[k + 1..], flatten);
    OutstandingConcat(ops[..k], [ops[k]], flatten);
    assert Outstanding([ops[k]], flatten) == (if IsItemOp(ops[k], flatten) then 1 else 0) by {
      assert [ops[k]][..0] == [];
    }
  }

  /** Replacing one item operation by another at the end keeps the count. */
  lemma OutstandingReplace(ops: seq<Op>, k: nat, op: Op, flatten: bool)
    requires k < |ops| && IsItemOp(ops[k], flatten) && IsItemOp(op, flatten)
    ensures Outstanding(RemoveAt(ops, k) + [op], flatten) == Outstanding(ops, flatten)
  {
    OutstandingRemoveAt(ops, k, flatten);
    OutstandingConcat(RemoveAt(ops, k), [op], flatten);
    assert [op][..0] == [];
  }

  // ---------------------------------------------------------------------------
  // The transitions
  // ---------------------------------------------------------------------------

  /**
   * Script start, with the counters at zero. A missing root folder is reported as a
   * failure, after which `tl.stats` throws and the script stops.
   */
  function Start(c: Config, rootExists: bool): State
  {
    if rootExists then State(Connecting, 0, 0, 0, 0, [], [], false, false, 0)
    else State(Crashed, 0, 0, 0, 0, [], [Failed(RootMissing(c.rootFolder))], false, false, 0)
  }

  /**
   * `checkDone`: when the counters add up to the number of entries (`remaining` is
   * zero), end the connection and report success with the four counters.
   */
  function CheckDoneStep(c: Config, s: State): State
  {
    if |c.files| - Total(s) == 0 then s.(ended := true, reports := s.reports + [SuccessReport(c, s)])
    else s
  }

  /** What `uploadFiles` issues before it looks at the entries: the remote root, when flattening. */
  function RootOps(c: Config): seq<Op>
  {
    if c.flatten then [Mkdir(c.remotePath)] else []
  }

  /**
   * The operations `uploadFiles` issues for one entry: a directory is created unless
   * flattening; a file is uploaded, or with overwrite off its remote directory is
   * listed first; anything else is ignored.
   */
  function OpsFor(c: Config, file: string): (ops: seq<Op>)
    ensures Outstanding(ops, c.flatten) == |ops|
    ensures |ops| == (if c.kind(file) == Other || (c.kind(file) == Directory && c.flatten) then 0 else 1)
    ensures NoClean(ops)
  {
    var remote := c.remoteFile(file);
    match c.kind(file)
    case Directory => if c.flatten then [] else [Mkdir(remote)]
    case File =>
      if c.overwrite then [Put(file, remote)]
      else [List(file, remote)]
    case Other => []
  }

  /** The operations `uploadFiles` issues for the first `n` entries, in file-list order. */
  function DispatchOps(c: Config, n: nat): (ops: seq<Op>)
    requires n <= |c.files|
    ensures NoClean(ops)
  {
    if n == 0 then [] else DispatchOps(c, n - 1) + OpsFor(c, c.files[n - 1])
  }

  /** How many of the first `n` entries `tl.stats` reports as being of kind `k`. */
  function CountKind(files: seq<string>, n: nat, kind: string -> Kind, k: Kind): (count: nat)
    requires n <= |files|
    ensures count <= n
  {
    if n == 0 then 0
    else CountKind(files, n - 1, kind, k) + (if kind(files[n - 1]) == k then 1 else 0)
  }

  /** All entries are of kind `k` exactly when the count of that kind is the number of entries. */
  lemma {:induction false} CountKindAll(files: seq<string>, n: nat, kind: string -> Kind, k: Kind)
    requires n <= |files|
    ensures CountKind(files, n, kind, k) == n <==> forall i :: 0 <= i < n ==> kind(files[i]) == k
  {
    if n > 0 {
      CountKindAll(files, n - 1, kind, k);
    }
  }

  /**
   * Right after dispatch every entry is accounted for exactly once: by an operation
   * standing for it, by `directoriesSkipped` (a directory when flattening), or not at
   * all because it is neither a file nor a directory.
   */
  lemma {:induction false} DispatchAccountsEveryEntry(c: Config, n: nat)
    requires n <= |c.files|
    ensures Outstanding(DispatchOps(c, n), c.flatten)
            + (if c.flatten then CountKind(c.files, n, c.kind, Directory) else 0)
            + CountKind(c.files, n, c.kind, Other)
            == n
  {
    if n > 0 {
      var f := c.files[n - 1];
      var ops := OpsFor(c, f);
      DispatchAccountsEveryEntry(c, n - 1);
      OutstandingConcat(DispatchOps(c, n - 1), ops, c.flatten);
      assert Outstanding(DispatchOps(c, n), c.flatten) == Outstanding(DispatchOps(c, n - 1), c.flatten) + |ops|;
      assert CountKind(c.files, n, c.kind, Directory)
          == CountKind(c.files, n - 1, c.kind, Directory) + (if c.kind(f) == Directory then 1 else 0);
      assert CountKind(c.files, n, c.kind, Other)
          == CountKind(c.files, n - 1, c.kind, Other) + (if c.kind(f) == Other then 1 else 0);
    }
  }

  /**
   * The body of the `forEach` in `uploadFiles` for one entry. A directory skipped
   * because of `flatten` is counted at once and `checkDone` runs.
   */
  function DispatchEntryStep(c: Config, s: State, file: string): State
  {
    var s1 := s.(pending := s.pending + OpsFor(c, file),
                 dropped := s.dropped + (if c.kind(file) == Other then 1 else 0));
    if c.flatten && c.kind(file) == Directory
    then CheckDoneStep(c, s1.(directoriesSkipped := s1.directoriesSkipped + 1))
    else s1
  }

  /** `uploadFiles` after it has gone through the first `n` entries. */
  function DispatchSteps(c: Config, s: State, n: nat): State
    requires n <= |c.files|
  {
    if n == 0 then s.(phase := Uploading, pending := s.pending + RootOps(c))
    else DispatchEntryStep(c, DispatchSteps(c, s, n - 1), c.files[n - 1])
  }

  /** `uploadFiles`. */
  function UploadFilesStep(c: Config, s: State): State
  {
    DispatchSteps(c, s, |c.files|)
  }

  /** The `ready` handler: clean the remote folder first, or upload straight away. */
  function ReadyStep(c: Config, s: State): State
  {
    if c.clean then s.(phase := Cleaning, pending := s.pending + [Rmdir(c.remotePath)])
    else UploadFilesStep(c, s)
  }

  /** The `c.rmdir` callback: a failure destroys the connection and fails the task, and the upload starts anyway. */
  function RmdirDoneStep(c: Config, s: State, err: bool): State
  {
    var s1 := s.(pending := []);
    UploadFilesStep(c, if err then s1.(destroyed := true, reports := s1.reports + [Failed(CleanFailed(c.remotePath))])
                       else s1)
  }

  /**
   * The `c.mkdir` callback: a failure ends the connection and fails the task, and
   * then, failure or not, the directory is counted (unless flattening) and
   * `checkDone` runs.
   */
  function MkdirDoneStep(c: Config, s: State, k: nat, err: bool): State
    requires k < |s.pending| && s.pending[k].Mkdir?
  {
    CheckDoneStep(c, MkdirCounted(c, s, k, err))
  }

  /** The `c.mkdir` callback up to its call of `checkDone`. */
  function MkdirCounted(c: Config, s: State, k: nat, err: bool): State
    requires k < |s.pending| && s.pending[k].Mkdir?
  {
    var s1 := s.(pending := RemoveAt(s.pending, k));
    var s2 := if err then s1.(ended := true, reports := s1.reports + [Failed(MkdirFailed(s.pending[k].path))])
              else s1;
    if c.flatten then s2 else s2.(directoriesCreated := s2.directoriesCreated + 1)
  }

  /**
   * The rest of the `c.list` callback once the listing has been scanned: a file
   * found there is counted as skipped and `checkDone` runs; otherwise the file is
   * uploaded.
   */
  function ListScannedStep(c: Config, s: State, k: nat, found: bool): State
    requires k < |s.pending| && s.pending[k].List?
  {
    var op := s.pending[k];
    var s1 := s.(pending := RemoveAt(s.pending, k));
    if found then CheckDoneStep(c, s1.(filesSkipped := s1.filesSkipped + 1))
    else s1.(pending := s1.pending + [Put(op.file, op.remoteFile)])
  }

  /** The `c.list` callback: the listing `names` is scanned for the name of the remote file. */
  function ListDoneStep(c: Config, s: State, k: nat, names: seq<string>): State
    requires k < |s.pending| && s.pending[k].List?
  {
    ListScannedStep(c, s, k, Basename(s.pending[k].remoteFile) in names)
  }

  /** A failed `c.list`: the callback iterates over an undefined listing and throws. */
  function ListFailedStep(c: Config, s: State, k: nat): State
    requires k < |s.pending|
  {
    s.(phase := Crashed, pending := RemoveAt(s.pending, k))
  }

  /**
   * The `c.put` callback: a failure ends the connection and fails the task without
   * counting anything; a success counts the file and runs `checkDone`.
   */
  function PutDoneStep(c: Config, s: State, k: nat, err: bool): State
    requires k < |s.pending| && s.pending[k].Put?
  {
    var op := s.pending[k];
    var s1 := s.(pending := RemoveAt(s.pending, k));
    if err then s1.(ended := true, reports := s1.reports + [Failed(UploadFailed(op.remoteFile))],
                    dropped := s1.dropped + 1)
    else CheckDoneStep(c, s1.(filesUploaded := s1.filesUploaded + 1))
  }

  /** Whether event `e` can happen in state `s`: its operation is pending and the script is still running. */
  predicate Enabled(s: State, e: Event)
  {
    match e
    case Ready => s.phase == Connecting
    case RmdirDone(_) => s.phase == Cleaning
    case MkdirDone(k, _) => s.phase == Uploading && k < |s.pending| && s.pending[k].Mkdir?
    case ListDone(k, _) => s.phase == Uploading && k < |s.pending| && s.pending[k].List?
    case ListFailed(k) => s.phase == Uploading && k < |s.pending| && s.pending[k].List?
    case PutDone(k, _) => s.phase == Uploading && k < |s.pending| && s.pending[k].Put?
  }

  /** The state after the callback of event `e`. */
  function Handle(c: Config, s: State, e: Event): State
    requires Enabled(s, e)
  {
    match e
    case Ready => ReadyStep(c, s)
    case RmdirDone(err) => RmdirDoneStep(c, s, err)
    case MkdirDone(k, err) => MkdirDoneStep(c, s, k, err)
    case ListDone(k, names) => ListDoneStep(c, s, k, names)
    case ListFailed(k) => ListFailedStep(c, s, k)
    case PutDone(k, err) => PutDoneStep(c, s, k, err)
  }

  /** Whether the events `es` can be delivered one after the other from `s`. */
  predicate CanRun(c: Config, s: State, es: seq<Event>)
    decreases |es|
  {
    |es| == 0 || (Enabled(s, es[0]) && CanRun(c, Handle(c, s, es[0]), es[1..]))
  }

  /** The state after the events `es`. */
  function Run(c: Config, s: State, es: seq<Event>): State
    requires CanRun(c, s, es)
    decreases |es|
  {
    if |es| == 0 then s else Run(c, Handle(c, s, es[0]), es[1..])
  }

  /** Running a single event is handling it. */
  lemma RunOne(c: Config, s: State, e: Event)
    requires Enabled(s, e)
    ensures CanRun(c, s, [e]) && Run(c, s, [e]) == Handle(c, s, e)
  {
    assert [e][1..] == [];
  }

  /** Running `[e] + es` is handling `e`, then running `es`. */
  lemma RunCons(c: Config, s: State, e: Event, es: seq<Event>)
    requires Enabled(s, e) && CanRun(c, Handle(c, s, e), es)
    ensures CanRun(c, s, [e] + es) && Run(c, s, [e] + es) == Run(c, Handle(c, s, e), es)
  {
    assert ([e] + es)[0] == e;
    assert ([e] + es)[1..] == es;
  }

  // ---------------------------------------------------------------------------
  // The invariant
  // ---------------------------------------------------------------------------

  /** A success report names the target and counts every entry of the file list. */
  predicate SuccessAccounts(c: Config, r: Report)
  {
    r.Succeeded? ==>
      && r.host == c.host && r.path == c.remotePath
      && r.filesUploaded + r.filesSkipped + r.directoriesCreated + r.directoriesSkipped == |c.files|
  }

  /** Every success report so far counts every entry. */
  predicate ReportsAccount(c: Config, reports: seq<Report>)
  {
    forall i :: 0 <= i < |reports| ==> SuccessAccounts(c, reports[i])
  }

  /**
   * The task's invariant. Before the upload starts nothing is counted and only the
   * clean operation can be pending. While uploading, each entry of the file list is
   * either counted once, or stands behind exactly one pending operation, or has been
   * dropped; so the counters never add up to more than the number of entries.
   */
  predicate Inv(c: Config, s: State)
  {
    && ReportsAccount(c, s.reports)
    && (s.phase == Connecting ==> Total(s) == 0 && s.pending == [] && s.dropped == 0)
    && (s.phase == Cleaning ==> Total(s) == 0 && s.pending == [Rmdir(c.remotePath)] && s.dropped == 0)
    && (s.phase == Uploading ==>
          && NoClean(s.pending)
          && Total(s) + Outstanding(s.pending, c.flatten) + s.dropped == |c.files|)
    && (s.phase == Crashed ==> Total(s) <= |c.files|)
  }

  /** The counters never add up to more than the number of entries. */
  lemma InvBoundsTotal(c: Config, s: State)
    requires Inv(c, s)
    ensures Total(s) <= |c.files|
  {
  }

  /** The script starts in a state satisfying the invariant. */
  lemma StartInv(c: Config, rootExists: bool)
    ensures Inv(c, Start(c, rootExists))
    ensures Start(c, rootExists).phase == (if rootExists then Connecting else Crashed)
  {
  }

  /**
   * `checkDone` reports success, and ends the connection, exactly when the counters
   * add up to the number of entries; the report it adds names the target and
   * carries the counters. Nothing else changes.
   */
  lemma CheckDoneReportsWhenAllCounted(c: Config, s: State)
    ensures var t := CheckDoneStep(c, s);
      && (|t.reports| == |s.reports| + 1 <==> Total(s) == |c.files|)
      && (Total(s) == |c.files| ==> t.reports == s.reports + [SuccessReport(c, s)] && t.ended)
      && (Total(s) != |c.files| ==> t == s)
      && t.phase == s.phase && Total(t) == Total(s) && t.pending == s.pending && t.dropped == s.dropped
      && (ReportsAccount(c, s.reports) ==> ReportsAccount(c, t.reports))
  {
  }

  /**
   * The state `uploadFiles` leaves behind after the first `n` entries, starting from
   * nothing counted and nothing pending. A success can only have been reported
   * when flattening and every entry is a directory.
   */
  lemma {:induction false} DispatchClosedForm(c: Config, s: State, n: nat)
    requires n <= |c.files|
    requires Total(s) == 0 && s.pending == [] && s.dropped == 0
    ensures var d := DispatchSteps(c, s, n);
      var allDirs := c.flatten && n > 0 && CountKind(c.files, n, c.kind, Directory) == |c.files|;
      && d.phase == Uploading
      && d.pending == RootOps(c) + DispatchOps(c, n)
      && d.filesUploaded == 0 && d.filesSkipped == 0 && d.directoriesCreated == 0
      && d.directoriesSkipped == (if c.flatten then CountKind(c.files, n, c.kind, Directory) else 0)
      && d.dropped == CountKind(c.files, n, c.kind, Other)
      && d.reports == s.reports + (if allDirs then [SuccessReport(c, d)] else [])
      && d.ended == (s.ended || allDirs)
      && d.destroyed == s.destroyed
  {
    if n > 0 {
      DispatchClosedForm(c, s, n - 1);
      ConcatAssoc(RootOps(c), DispatchOps(c, n - 1), OpsFor(c, c.files[n - 1]));
    }
  }

  /**
   * `uploadFiles` started with nothing counted and nothing pending leaves a state
   * satisfying the invariant: every entry stands behind one pending operation, or
   * is counted as a skipped directory, or is dropped.
   */
  lemma UploadFilesInv(c: Config, s: State)
    requires ReportsAccount(c, s.reports)
    requires Total(s) == 0 && s.pending == [] && s.dropped == 0
    ensures Inv(c, UploadFilesStep(c, s))
    ensures UploadFilesStep(c, s).phase == Uploading
  {
    var n := |c.files|;
    DispatchClosedForm(c, s, n);
    DispatchAccountsEveryEntry(c, n);
    OutstandingConcat(RootOps(c), DispatchOps(c, n), c.flatten);
    assert Outstanding(RootOps(c), c.flatten) == 0 by {
      if c.flatten {
        assert RootOps(c)[..0] == [];
      }
    }
    var d := UploadFilesStep(c, s);
    assert NoClean(d.pending);
    assert ReportsAccount(c, d.reports) by {
      forall i | 0 <= i < |d.reports|
        ensures SuccessAccounts(c, d.reports[i])
      {
        if i >= |s.reports| {
          assert d.reports[i] == SuccessReport(c, d);
        }
      }
    }
  }

  /** Adding a failure report keeps every success report accounted for. */
  lemma AddFailureKeepsAccount(c: Config, reports: seq<Report>, f: Failure)
    requires ReportsAccount(c, reports)
    ensures ReportsAccount(c, reports + [Failed(f)])
  {
    forall i | 0 <= i < |reports| + 1
      ensures SuccessAccounts(c, (reports + [Failed(f)])[i])
    {
      if i < |reports| {
        assert (reports + [Failed(f)])[i] == reports[i];
      }
    }
  }

  /** The `ready` handler keeps the invariant. */
  lemma ReadyInv(c: Config, s: State)
    requires Inv(c, s) && s.phase == Connecting
    ensures Inv(c, ReadyStep(c, s))
  {
    if !c.clean {
      UploadFilesInv(c, s);
    }
  }

  /** The `c.rmdir` callback keeps the invariant, whatever its outcome. */
  lemma RmdirDoneInv(c: Config, s: State, err: bool)
    requires Inv(c, s) && s.phase == Cleaning
    ensures Inv(c, RmdirDoneStep(c, s, err))
  {
    var s1 := s.(pending := []);
    if err {
      AddFailureKeepsAccount(c, s.reports, CleanFailed(c.remotePath));
      UploadFilesInv(c, s1.(destroyed := true, reports := s1.reports + [Failed(CleanFailed(c.remotePath))]));
    } else {
      UploadFilesInv(c, s1);
    }
  }

  /** The `c.mkdir` callback keeps the invariant, whatever its outcome. */
  lemma MkdirDoneInv(c: Config, s: State, k: nat, err: bool)
    requires Inv(c, s) && Enabled(s, MkdirDone(k, err))
    ensures Inv(c, MkdirDoneStep(c, s, k, err))
  {
    OutstandingRemoveAt(s.pending, k, c.flatten);
    if err {
      AddFailureKeepsAccount(c, s.reports, MkdirFailed(s.pending[k].path));
    }
    assert Inv(c, MkdirCounted(c, s, k, err));
    CheckDoneInv(c, MkdirCounted(c, s, k, err));
  }

  /** `checkDone` keeps the invariant. */
  lemma CheckDoneInv(c: Config, s: State)
    requires Inv(c, s)
    ensures Inv(c, CheckDoneStep(c, s))
  {
    CheckDoneReportsWhenAllCounted(c, s);
  }

  /** A file found in the remote listing is counted, and the invariant kept. */
  lemma ListSkipInv(c: Config, s: State, k: nat)
    requires Inv(c, s) && s.phase == Uploading && k < |s.pending| && s.pending[k].List?
    ensures Inv(c, ListScannedStep(c, s, k, true))
  {
    OutstandingRemoveAt(s.pending, k, c.flatten);
    var u := s.(pending := RemoveAt(s.pending, k), filesSkipped := s.filesSkipped + 1);
    assert Inv(c, u);
    CheckDoneInv(c, u);
  }

  /** A file missing from the remote listing is uploaded, and the invariant kept. */
  lemma ListUploadInv(c: Config, s: State, k: nat)
    requires Inv(c, s) && s.phase == Uploading && k < |s.pending| && s.pending[k].List?
    ensures Inv(c, ListScannedStep(c, s, k, false))
  {
    var op := s.pending[k];
    OutstandingReplace(s.pending, k, Put(op.file, op.remoteFile), c.flatten);
  }

  /** The `c.list` callback keeps the invariant, whether or not the file was found. */
  lemma ListScannedInv(c: Config, s: State, k: nat, found: bool)
    requires Inv(c, s) && s.phase == Uploading && k < |s.pending| && s.pending[k].List?
    ensures Inv(c, ListScannedStep(c, s, k, found))
  {
    if found {
      ListSkipInv(c, s, k);
    } else {
      ListUploadInv(c, s, k);
    }
  }

  /** A failed `c.list` stops the script with the counters still within bounds. */
  lemma ListFailedInv(c: Config, s: State, k: nat)
    requires Inv(c, s) && Enabled(s, ListFailed(k))
    ensures Inv(c, ListFailedStep(c, s, k))
  {
  }

  /** The `c.put` callback keeps the invariant, whatever its outcome. */
  lemma PutDoneInv(c: Config, s: State, k: nat, err: bool)
    requires Inv(c, s) && Enabled(s, PutDone(k, err))
    ensures Inv(c, PutDoneStep(c, s, k, err))
  {
    OutstandingRemoveAt(s.pending, k, c.flatten);
    var s1 := s.(pending := RemoveAt(s.pending, k));
    if err {
      AddFailureKeepsAccount(c, s.reports, UploadFailed(s.pending[k].remoteFile));
    } else {
      assert Inv(c, s1.(filesUploaded := s1.filesUploaded + 1));
      CheckDoneInv(c, s1.(filesUploaded := s1.filesUploaded + 1));
    }
  }

  /** Every callback keeps the invariant. */
  lemma HandleInv(c: Config, s: State, e: Event)
    requires Inv(c, s) && Enabled(s, e)
    ensures Inv(c, Handle(c, s, e))
  {
    match e
    case Ready => ReadyInv(c, s);
    case RmdirDone(err) => RmdirDoneInv(c, s, err);
    case MkdirDone(k, err) => MkdirDoneInv(c, s, k, err);
    case ListDone(k, names) => ListScannedInv(c, s, k, Basename(s.pending[k].remoteFile) in names);
    case ListFailed(k) => ListFailedInv(c, s, k);
    case PutDone(k, err) => PutDoneInv(c, s, k, err);
  }

  /** The invariant holds after any sequence of deliverable events. */
  lemma {:induction false} RunInv(c: Config, s: State, es: seq<Event>)
    requires Inv(c, s) && CanRun(c, s, es)
    ensures Inv(c, Run(c, s, es))
    decreases |es|
  {
    if |es| > 0 {
      HandleInv(c, s, es[0]);
      RunInv(c, Handle(c, s, es[0]), es[1..]);
    }
  }

  /**
   * From the start of the script, whatever completions the server delivers and in
   * whatever order, the four counters never add up to more than the number of
   * entries, and every success report counts every entry and names the target.
   */
  lemma CountersBoundedFromStart(c: Config, rootExists: bool, es: seq<Event>)
    requires CanRun(c, Start(c, rootExists), es)
    ensures var t := Run(c, Start(c, rootExists), es);
      Total(t) <= |c.files| && ReportsAccount(c, t.reports)
  {
    StartInv(c, rootExists);
    RunInv(c, Start(c, rootExists), es);
  }
}
