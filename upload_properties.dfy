/**
 * What the upload state machine promises across callbacks: progress is never
 * undone, an entry that is dropped rules out a success report for good, and
 * without `flatten` success is reported at most once. Then the behaviours the
 * handlers have on particular inputs: a failed clean still uploads, a failed
 * `mkdir` is still counted, a listed file is skipped exactly when its name is in
 * the listing, an empty selection without `flatten` never reports, and with
 * `flatten` the root `mkdir` can report success a second time.
 */
module UploadProperties {
  import opened Paths
  import opened FileSelection
  import opened UploadModel

  // ---------------------------------------------------------------------------
  // Progress
  // ---------------------------------------------------------------------------

  /**
   * From `s` to `t` nothing was undone: no counter went down, reports were only
   * appended, the connection was not reopened and no entry came back.
   */
  predicate Advances(s: State, t: State)
  {
    && s.filesUploaded <= t.filesUploaded && s.filesSkipped <= t.filesSkipped
    && s.directoriesCreated <= t.directoriesCreated && s.directoriesSkipped <= t.directoriesSkipped
    && s.reports <= t.reports
    && (s.ended ==> t.ended) && (s.destroyed ==> t.destroyed)
    && s.dropped <= t.dropped
  }

  lemma AdvancesTransitive(s: State, t: State, u: State)
    requires Advances(s, t) && Advances(t, u)
    ensures Advances(s, u)
  {
    assert s.reports == t.reports[..|s.reports|];
    assert t.reports == u.reports[..|t.reports|];
    assert u.reports[..|t.reports|][..|s.reports|] == u.reports[..|s.reports|];
  }

  /** `checkDone` undoes nothing. */
  lemma CheckDoneAdvances(c: Config, s: State)
    ensures Advances(s, CheckDoneStep(c, s))
  {
  }

  /** `uploadFiles`, at every point of its loop over the entries, undoes nothing. */
  lemma {:induction false} DispatchAdvances(c: Config, s: State, n: nat)
    requires n <= |c.files|
    ensures Advances(s, DispatchSteps(c, s, n))
  {
    if n > 0 {
      DispatchAdvances(c, s, n - 1);
      var d := DispatchSteps(c, s, n - 1);
      var f := c.files[n - 1];
      var d1 := d.(pending := d.pending + OpsFor(c, f),
                   dropped := d.dropped + (if c.kind(f) == Other then 1 else 0));
      if c.flatten && c.kind(f) == Directory {
        CheckDoneAdvances(c, d1.(directoriesSkipped := d1.directoriesSkipped + 1));
        AdvancesTransitive(d, d1.(directoriesSkipped := d1.directoriesSkipped + 1), DispatchSteps(c, s, n));
      }
      AdvancesTransitive(s, d, DispatchSteps(c, s, n));
    }
  }

  /** The `ready` handler undoes nothing. */
  lemma ReadyAdvances(c: Config, s: State)
    ensures Advances(s, ReadyStep(c, s))
  {
    if !c.clean {
      DispatchAdvances(c, s, |c.files|);
    }
  }

  /** The `c.rmdir` callback undoes nothing. */
  lemma RmdirDoneAdvances(c: Config, s: State, err: bool)
    ensures Advances(s, RmdirDoneStep(c, s, err))
  {
    var s1 := s.(pending := []);
    var s2 := if err then s1.(destroyed := true, reports := s1.reports + [Failed(CleanFailed(c.remotePath))]) else s1;
    DispatchAdvances(c, s2, |c.files|);
    AdvancesTransitive(s, s2, RmdirDoneStep(c, s, err));
  }

  /** The `c.mkdir` callback undoes nothing. */
  lemma MkdirDoneAdvances(c: Config, s: State, k: nat, err: bool)
    requires k < |s.pending| && s.pending[k].Mkdir?
    ensures Advances(s, MkdirDoneStep(c, s, k, err))
  {
    CheckDoneAdvances(c, MkdirCounted(c, s, k, err));
    AdvancesTransitive(s, MkdirCounted(c, s, k, err), MkdirDoneStep(c, s, k, err));
  }

  /** The `c.list` callback undoes nothing. */
  lemma ListScannedAdvances(c: Config, s: State, k: nat, found: bool)
    requires k < |s.pending| && s.pending[k].List?
    ensures Advances(s, ListScannedStep(c, s, k, found))
  {
    if found {
      var u := s.(pending := RemoveAt(s.pending, k), filesSkipped := s.filesSkipped + 1);
      CheckDoneAdvances(c, u);
      AdvancesTransitive(s, u, CheckDoneStep(c, u));
    }
  }

  /** The `c.put` callback undoes nothing. */
  lemma PutDoneAdvances(c: Config, s: State, k: nat, err: bool)
    requires k < |s.pending| && s.pending[k].Put?
    ensures Advances(s, PutDoneStep(c, s, k, err))
  {
    if !err {
      var u := s.(pending := RemoveAt(s.pending, k), filesUploaded := s.filesUploaded + 1);
      CheckDoneAdvances(c, u);
      AdvancesTransitive(s, u, CheckDoneStep(c, u));
    }
  }

  /** No callback undoes progress. */
  lemma HandleAdvances(c: Config, s: State, e: Event)
    requires Enabled(s, e)
    ensures Advances(s, Handle(c, s, e))
  {
    match e
    case Ready => ReadyAdvances(c, s);
    case RmdirDone(err) => RmdirDoneAdvances(c, s, err);
    case MkdirDone(k, err) => MkdirDoneAdvances(c, s, k, err);
    case ListDone(k, names) => ListScannedAdvances(c, s, k, Basename(s.pending[k].remoteFile) in names);
    case ListFailed(k) =>
    case PutDone(k, err) => PutDoneAdvances(c, s, k, err);
  }

  /** No sequence of callbacks undoes progress. */
  lemma {:induction false} RunAdvances(c: Config, s: State, es: seq<Event>)
    requires CanRun(c, s, es)
    ensures Advances(s, Run(c, s, es))
    decreases |es|
  {
    if |es| > 0 {
      HandleAdvances(c, s, es[0]);
      RunAdvances(c, Handle(c, s, es[0]), es[1..]);
      AdvancesTransitive(s, Handle(c, s, es[0]), Run(c, s, es));
    }
  }

  // ---------------------------------------------------------------------------
  // A dropped entry rules out success
  // ---------------------------------------------------------------------------

  /** `t` is `s` with only failure reports appended. */
  predicate OnlyFailuresAdded(s: State, t: State)
  {
    && s.reports <= t.reports
    && forall i :: |s.reports| <= i < |t.reports| ==> t.reports[i].Failed?
  }

  /** `checkDone` stays silent while some entry is neither counted nor accounted for by the counters. */
  lemma CheckDoneSilentWhileShort(c: Config, s: State)
    requires Total(s) < |c.files|
    ensures CheckDoneStep(c, s) == s
  {
  }

  /** With an entry dropped, the `c.mkdir` callback reports no success. */
  lemma MkdirDoneAfterDrop(c: Config, s: State, k: nat, err: bool)
    requires Inv(c, s) && Enabled(s, MkdirDone(k, err)) && s.dropped > 0
    ensures OnlyFailuresAdded(s, MkdirDoneStep(c, s, k, err))
  {
    OutstandingRemoveAt(s.pending, k, c.flatten);
    CheckDoneSilentWhileShort(c, MkdirCounted(c, s, k, err));
  }

  /** With an entry dropped, the `c.list` callback reports no success. */
  lemma ListScannedAfterDrop(c: Config, s: State, k: nat, found: bool)
    requires Inv(c, s) && s.phase == Uploading && k < |s.pending| && s.pending[k].List? && s.dropped > 0
    ensures OnlyFailuresAdded(s, ListScannedStep(c, s, k, found))
  {
    if found {
      OutstandingRemoveAt(s.pending, k, c.flatten);
      CheckDoneSilentWhileShort(c, s.(pending := RemoveAt(s.pending, k), filesSkipped := s.filesSkipped + 1));
    }
  }

  /** With an entry dropped, the `c.put` callback reports no success. */
  lemma PutDoneAfterDrop(c: Config, s: State, k: nat, err: bool)
    requires Inv(c, s) && Enabled(s, PutDone(k, err)) && s.dropped > 0
    ensures OnlyFailuresAdded(s, PutDoneStep(c, s, k, err))
  {
    if !err {
      OutstandingRemoveAt(s.pending, k, c.flatten);
      CheckDoneSilentWhileShort(c, s.(pending := RemoveAt(s.pending, k), filesUploaded := s.filesUploaded + 1));
    }
  }

  /**
   * Once an entry has been dropped (it was neither a file nor a directory, or its
   * upload failed), no callback reports success: each one only appends failures,
   * and the dropped entry stays dropped.
   */
  lemma DroppedCallbackReportsNoSuccess(c: Config, s: State, e: Event)
    requires Inv(c, s) && Enabled(s, e) && s.dropped > 0
    ensures var t := Handle(c, s, e);
      OnlyFailuresAdded(s, t) && t.dropped > 0 && Inv(c, t)
  {
    HandleInv(c, s, e);
    HandleAdvances(c, s, e);
    match e
    case Ready =>
      assert false;
    case RmdirDone(_) =>
      assert false;
    case MkdirDone(k, err) => MkdirDoneAfterDrop(c, s, k, err);
    case ListDone(k, names) => ListScannedAfterDrop(c, s, k, Basename(s.pending[k].remoteFile) in names);
    case ListFailed(k) =>
    case PutDone(k, err) => PutDoneAfterDrop(c, s, k, err);
  }

  /** Once an entry has been dropped, no sequence of callbacks reports success. */
  lemma {:induction false} DroppedRunReportsNoSuccess(c: Config, s: State, es: seq<Event>)
    requires Inv(c, s) && CanRun(c, s, es) && s.dropped > 0
    ensures OnlyFailuresAdded(s, Run(c, s, es))
    decreases |es|
  {
    if |es| > 0 {
      var t := Handle(c, s, es[0]);
      DroppedCallbackReportsNoSuccess(c, s, es[0]);
      DroppedRunReportsNoSuccess(c, t, es[1..]);
      var u := Run(c, s, es);
      assert t.reports == u.reports[..|t.reports|];
      assert s.reports == u.reports[..|s.reports|];
      forall i | |s.reports| <= i < |u.reports|
        ensures u.reports[i].Failed?
      {
        if i < |t.reports| {
          assert u.reports[i] == t.reports[i];
        }
      }
    }
  }

  /** The first `n` entries hold at most `n` entries of two different kinds together. */
  lemma {:induction false} CountKindsDisjoint(files: seq<string>, n: nat, kind: string -> Kind, k1: Kind, k2: Kind)
    requires n <= |files| && k1 != k2
    ensures CountKind(files, n, kind, k1) + CountKind(files, n, kind, k2) <= n
  {
    if n > 0 {
      CountKindsDisjoint(files, n - 1, kind, k1, k2);
    }
  }

  /**
   * An entry that is neither a file nor a directory is dropped by `uploadFiles`
   * without a report; from then on the task can only report failures.
   */
  lemma OtherEntryIsDropped(c: Config, s: State)
    requires Total(s) == 0 && s.pending == [] && s.dropped == 0 && ReportsAccount(c, s.reports)
    requires exists i :: 0 <= i < |c.files| && c.kind(c.files[i]) == Other
    ensures var d := UploadFilesStep(c, s);
      d.dropped > 0 && d.reports == s.reports && Inv(c, d)
  {
    var n := |c.files|;
    CountKindAll(c.files, n, c.kind, Directory);
    CountKindsDisjoint(c.files, n, c.kind, Directory, Other);
    var i :| 0 <= i < n && c.kind(c.files[i]) == Other;
    assert CountKind(c.files, n, c.kind, Directory) < n;
    DispatchClosedForm(c, s, n);
    CountKindPositive(c.files, n, c.kind, Other, i);
    UploadFilesInv(c, s);
  }

  /** An entry of kind `k` among the first `n` makes the count of that kind positive. */
  lemma {:induction false} CountKindPositive(files: seq<string>, n: nat, kind: string -> Kind, k: Kind, i: nat)
    requires i < n <= |files| && kind(files[i]) == k
    ensures CountKind(files, n, kind, k) > 0
  {
    if i < n - 1 {
      CountKindPositive(files, n - 1, kind, k, i);
    }
  }

  // ---------------------------------------------------------------------------
  // Without flatten, success is reported at most once
  // ---------------------------------------------------------------------------

  /** How many success reports there are among `reports`. */
  function SuccessCount(reports: seq<Report>): (n: nat)
    ensures n <= |reports|
    ensures n == 0 <==> forall i :: 0 <= i < |reports| ==> reports[i].Failed?
  {
    if |reports| == 0 then 0
    else SuccessCount(reports[..|reports| - 1]) + (if reports[|reports| - 1].Succeeded? then 1 else 0)
  }

  lemma SuccessCountSnoc(reports: seq<Report>, r: Report)
    ensures SuccessCount(reports + [r]) == SuccessCount(reports) + (if r.Succeeded? then 1 else 0)
  {
    assert (reports + [r])[..|reports|] == reports;
  }

  /** Without `flatten` every pending operation other than the clean stands for an entry. */
  lemma {:induction false} OutstandingWithoutFlatten(ops: seq<Op>)
    requires NoClean(ops)
    ensures Outstanding(ops, false) == |ops|
  {
    if |ops| > 0 {
      assert ops[|ops| - 1] in ops;
      OutstandingWithoutFlatten(ops[..|ops| - 1]);
    }
  }

  /**
   * Without `flatten`, once the counters add up to the number of entries while
   * uploading, nothing is pending any more, so no further callback can run.
   */
  lemma AllCountedIsFinal(c: Config, s: State)
    requires Inv(c, s) && !c.flatten && s.phase == Uploading && Total(s) == |c.files|
    ensures s.pending == [] && s.dropped == 0
    ensures forall e :: !Enabled(s, e)
  {
    OutstandingWithoutFlatten(s.pending);
  }

  /** A success report so far means every entry is counted and the upload has started. */
  predicate SuccessIsFinal(c: Config, s: State)
  {
    && SuccessCount(s.reports) <= 1
    && (SuccessCount(s.reports) == 1 ==> (s.phase == Uploading || s.phase == Crashed) && Total(s) == |c.files|)
  }

  /** `checkDone` adds one success report when everything is counted and none otherwise. */
  lemma CheckDoneSuccessCount(c: Config, s: State)
    ensures SuccessCount(CheckDoneStep(c, s).reports)
            == SuccessCount(s.reports) + (if Total(s) == |c.files| then 1 else 0)
  {
    if Total(s) == |c.files| {
      SuccessCountSnoc(s.reports, SuccessReport(c, s));
    }
  }

  /** Without `flatten`, `uploadFiles` reports nothing. */
  lemma UploadFilesSilentWithoutFlatten(c: Config, s: State)
    requires !c.flatten && Total(s) == 0 && s.pending == [] && s.dropped == 0
    ensures UploadFilesStep(c, s).reports == s.reports
  {
    DispatchClosedForm(c, s, |c.files|);
  }

  /** Without `flatten`, the `ready` handler reports nothing. */
  lemma ReadyAddsNoSuccess(c: Config, s: State)
    requires Inv(c, s) && !c.flatten && s.phase == Connecting
    ensures ReadyStep(c, s).reports == s.reports
  {
    if !c.clean {
      UploadFilesSilentWithoutFlatten(c, s);
    }
  }

  /** Without `flatten`, the `c.rmdir` callback adds no success report. */
  lemma RmdirDoneAddsNoSuccess(c: Config, s: State, err: bool)
    requires Inv(c, s) && !c.flatten && s.phase == Cleaning
    ensures SuccessCount(RmdirDoneStep(c, s, err).reports) == SuccessCount(s.reports)
  {
    var s1 := s.(pending := []);
    var s2 := if err then s1.(destroyed := true, reports := s1.reports + [Failed(CleanFailed(c.remotePath))]) else s1;
    SuccessCountSnoc(s1.reports, Failed(CleanFailed(c.remotePath)));
    UploadFilesSilentWithoutFlatten(c, s2);
  }

  /** The `c.mkdir` callback adds a success report only once everything is counted. */
  lemma MkdirDoneSuccessCount(c: Config, s: State, k: nat, err: bool)
    requires Enabled(s, MkdirDone(k, err))
    ensures var t := MkdirDoneStep(c, s, k, err);
      && SuccessCount(t.reports) <= SuccessCount(s.reports) + 1
      && (SuccessCount(t.reports) > SuccessCount(s.reports) ==> t.phase == Uploading && Total(t) == |c.files|)
  {
    if err {
      SuccessCountSnoc(s.reports, Failed(MkdirFailed(s.pending[k].path)));
    }
    CheckDoneSuccessCount(c, MkdirCounted(c, s, k, err));
  }

  /** The `c.list` callback adds a success report only once everything is counted. */
  lemma ListScannedSuccessCount(c: Config, s: State, k: nat, found: bool)
    requires s.phase == Uploading && k < |s.pending| && s.pending[k].List?
    ensures var t := ListScannedStep(c, s, k, found);
      && SuccessCount(t.reports) <= SuccessCount(s.reports) + 1
      && (SuccessCount(t.reports) > SuccessCount(s.reports) ==> t.phase == Uploading && Total(t) == |c.files|)
  {
    if found {
      var u := s.(pending := RemoveAt(s.pending, k), filesSkipped := s.filesSkipped + 1);
      assert ListScannedStep(c, s, k, found) == CheckDoneStep(c, u);
      CheckDoneSuccessCount(c, u);
      CheckDoneReportsWhenAllCounted(c, u);
    } else {
      assert ListScannedStep(c, s, k, found).reports == s.reports;
    }
  }

  /** The `c.put` callback adds a success report only once everything is counted. */
  lemma PutDoneSuccessCount(c: Config, s: State, k: nat, err: bool)
    requires Enabled(s, PutDone(k, err))
    ensures var t := PutDoneStep(c, s, k, err);
      && SuccessCount(t.reports) <= SuccessCount(s.reports) + 1
      && (SuccessCount(t.reports) > SuccessCount(s.reports) ==> t.phase == Uploading && Total(t) == |c.files|)
  {
    if err {
      SuccessCountSnoc(s.reports, Failed(UploadFailed(s.pending[k].remoteFile)));
    } else {
      var u := s.(pending := RemoveAt(s.pending, k), filesUploaded := s.filesUploaded + 1);
      assert PutDoneStep(c, s, k, err) == CheckDoneStep(c, u);
      CheckDoneSuccessCount(c, u);
      CheckDoneReportsWhenAllCounted(c, u);
    }
  }

  /** Without `flatten`, every callback keeps success final. */
  lemma HandleKeepsSuccessFinal(c: Config, s: State, e: Event)
    requires Inv(c, s) && !c.flatten && Enabled(s, e) && SuccessIsFinal(c, s)
    ensures SuccessIsFinal(c, Handle(c, s, e))
  {
    if SuccessCount(s.reports) == 1 {
      if s.phase == Uploading {
        AllCountedIsFinal(c, s);
      }
      assert false;
    }
    match e
    case Ready => ReadyAddsNoSuccess(c, s);
    case RmdirDone(err) => RmdirDoneAddsNoSuccess(c, s, err);
    case MkdirDone(k, err) => MkdirDoneSuccessCount(c, s, k, err);
    case ListDone(k, names) => ListScannedSuccessCount(c, s, k, Basename(s.pending[k].remoteFile) in names);
    case ListFailed(k) =>
    case PutDone(k, err) => PutDoneSuccessCount(c, s, k, err);
  }

  /** Without `flatten`, a task reports success at most once, whatever the server does. */
  lemma {:induction false} AtMostOneSuccessWithoutFlatten(c: Config, s: State, es: seq<Event>)
    requires Inv(c, s) && !c.flatten && SuccessIsFinal(c, s) && CanRun(c, s, es)
    ensures SuccessCount(Run(c, s, es).reports) <= 1
    decreases |es|
  {
    if |es| > 0 {
      HandleInv(c, s, es[0]);
      HandleKeepsSuccessFinal(c, s, es[0]);
      AtMostOneSuccessWithoutFlatten(c, Handle(c, s, es[0]), es[1..]);
    }
  }

  /** In particular from the start of the script. */
  lemma AtMostOneSuccessFromStart(c: Config, rootExists: bool, es: seq<Event>)
    requires !c.flatten && CanRun(c, Start(c, rootExists), es)
    ensures SuccessCount(Run(c, Start(c, rootExists), es).reports) <= 1
  {
    StartInv(c, rootExists);
    AtMostOneSuccessWithoutFlatten(c, Start(c, rootExists), es);
  }

  // ---------------------------------------------------------------------------
  // Completing the count reports success
  // ---------------------------------------------------------------------------

  /** Appending reports never lowers the number of success reports. */
  lemma {:induction false} SuccessCountPrefix(a: seq<Report>, b: seq<Report>)
    requires a <= b
    ensures SuccessCount(a) <= SuccessCount(b)
    decreases |b|
  {
    if |a| < |b| {
      assert a <= b[..|b| - 1];
      SuccessCountPrefix(a, b[..|b| - 1]);
    } else {
      assert a == b;
    }
  }

  /** `uploadFiles` that counts every entry reports success exactly once. */
  lemma UploadFilesCompletingReports(c: Config, s: State)
    requires Total(s) == 0 && s.pending == [] && s.dropped == 0
    requires Total(UploadFilesStep(c, s)) == |c.files| > 0
    ensures SuccessCount(UploadFilesStep(c, s).reports) == SuccessCount(s.reports) + 1
  {
    var d := UploadFilesStep(c, s);
    DispatchClosedForm(c, s, |c.files|);
    SuccessCountSnoc(s.reports, SuccessReport(c, d));
  }

  /** A `c.rmdir` callback whose upload counts every entry reports success exactly once. */
  lemma RmdirDoneCompletingReports(c: Config, s: State, err: bool)
    requires Inv(c, s) && s.phase == Cleaning
    requires Total(RmdirDoneStep(c, s, err)) == |c.files| > 0
    ensures SuccessCount(RmdirDoneStep(c, s, err).reports) == SuccessCount(s.reports) + 1
  {
    var s1 := s.(pending := []);
    var s2 := if err then s1.(destroyed := true, reports := s1.reports + [Failed(CleanFailed(c.remotePath))]) else s1;
    assert RmdirDoneStep(c, s, err) == UploadFilesStep(c, s2);
    SuccessCountSnoc(s.reports, Failed(CleanFailed(c.remotePath)));
    assert SuccessCount(s2.reports) == SuccessCount(s.reports);
    UploadFilesCompletingReports(c, s2);
  }

  /** A `c.mkdir` callback that completes the count reports success exactly once. */
  lemma MkdirDoneCompletingReports(c: Config, s: State, k: nat, err: bool)
    requires Enabled(s, MkdirDone(k, err))
    requires Total(MkdirDoneStep(c, s, k, err)) == |c.files|
    ensures SuccessCount(MkdirDoneStep(c, s, k, err).reports) == SuccessCount(s.reports) + 1
  {
    var u := MkdirCounted(c, s, k, err);
    SuccessCountSnoc(s.reports, Failed(MkdirFailed(s.pending[k].path)));
    assert SuccessCount(u.reports) == SuccessCount(s.reports);
    CheckDoneReportsWhenAllCounted(c, u);
    CheckDoneSuccessCount(c, u);
  }

  /** A `c.list` callback that completes the count reports success exactly once. */
  lemma ListScannedCompletingReports(c: Config, s: State, k: nat, found: bool)
    requires s.phase == Uploading && k < |s.pending| && s.pending[k].List?
    requires Total(s) < |c.files| && Total(ListScannedStep(c, s, k, found)) == |c.files|
    ensures SuccessCount(ListScannedStep(c, s, k, found).reports) == SuccessCount(s.reports) + 1
  {
    var u := s.(pending := RemoveAt(s.pending, k), filesSkipped := s.filesSkipped + 1);
    if found {
      assert ListScannedStep(c, s, k, found) == CheckDoneStep(c, u);
      CheckDoneReportsWhenAllCounted(c, u);
      CheckDoneSuccessCount(c, u);
    }
  }

  /** A `c.put` callback that completes the count reports success exactly once. */
  lemma PutDoneCompletingReports(c: Config, s: State, k: nat, err: bool)
    requires Enabled(s, PutDone(k, err))
    requires Total(s) < |c.files| && Total(PutDoneStep(c, s, k, err)) == |c.files|
    ensures SuccessCount(PutDoneStep(c, s, k, err).reports) == SuccessCount(s.reports) + 1
  {
    var u := s.(pending := RemoveAt(s.pending, k), filesUploaded := s.filesUploaded + 1);
    if !err {
      assert PutDoneStep(c, s, k, err) == CheckDoneStep(c, u);
      CheckDoneReportsWhenAllCounted(c, u);
      CheckDoneSuccessCount(c, u);
    }
  }

  /**
   * The callback that brings the counters up to the number of entries reports
   * success, exactly once: whichever callback completes the count, `checkDone`
   * runs right after the counting step.
   */
  lemma CompletingCallbackReports(c: Config, s: State, e: Event)
    requires Inv(c, s) && Enabled(s, e)
    requires Total(s) < |c.files| && Total(Handle(c, s, e)) == |c.files|
    ensures SuccessCount(Handle(c, s, e).reports) == SuccessCount(s.reports) + 1
  {
    match e
    case Ready =>
      if !c.clean {
        UploadFilesCompletingReports(c, s);
      }
    case RmdirDone(err) => RmdirDoneCompletingReports(c, s, err);
    case MkdirDone(k, err) => MkdirDoneCompletingReports(c, s, k, err);
    case ListDone(k, names) => ListScannedCompletingReports(c, s, k, Basename(s.pending[k].remoteFile) in names);
    case ListFailed(k) =>
    case PutDone(k, err) => PutDoneCompletingReports(c, s, k, err);
  }

  /**
   * A run that takes the counters from short of the number of entries up to it
   * has reported success at least once along the way.
   */
  lemma {:induction false} CompletingRunReports(c: Config, s: State, es: seq<Event>)
    requires Inv(c, s) && CanRun(c, s, es)
    requires Total(s) < |c.files| && Total(Run(c, s, es)) == |c.files|
    ensures SuccessCount(Run(c, s, es).reports) >= SuccessCount(s.reports) + 1
    decreases |es|
  {
    assert |es| > 0;
    var t := Handle(c, s, es[0]);
    HandleInv(c, s, es[0]);
    InvBoundsTotal(c, t);
    if Total(t) == |c.files| {
      CompletingCallbackReports(c, s, es[0]);
      RunAdvances(c, t, es[1..]);
      SuccessCountPrefix(t.reports, Run(c, s, es).reports);
    } else {
      HandleAdvances(c, s, es[0]);
      SuccessCountPrefix(s.reports, t.reports);
      CompletingRunReports(c, t, es[1..]);
    }
  }

  /** While uploading, nothing pending and nothing dropped means every entry is counted. */
  lemma QuiescentIsComplete(c: Config, t: State)
    requires Inv(c, t) && t.phase == Uploading && t.pending == [] && t.dropped == 0
    ensures Total(t) == |c.files|
  {
    assert Outstanding(t.pending, c.flatten) == 0;
  }

  /**
   * A run that leaves the upload with nothing pending and nothing dropped, started
   * from a state (the start of the script, say) where not every entry was counted
   * yet and no success had been reported, has reported success: exactly once
   * without `flatten`, and at least once with it.
   */
  lemma QuiescentRunReports(c: Config, s: State, es: seq<Event>)
    requires Inv(c, s) && CanRun(c, s, es) && Total(s) < |c.files| && SuccessCount(s.reports) == 0
    requires Run(c, s, es).phase == Uploading && Run(c, s, es).pending == [] && Run(c, s, es).dropped == 0
    ensures SuccessCount(Run(c, s, es).reports) >= 1
    ensures !c.flatten ==> SuccessCount(Run(c, s, es).reports) == 1
  {
    RunInv(c, s, es);
    QuiescentIsComplete(c, Run(c, s, es));
    CompletingRunReports(c, s, es);
    if !c.flatten {
      AtMostOneSuccessWithoutFlatten(c, s, es);
    }
  }

  /** The start of the script, with a non-empty selection, is such a state. */
  lemma StartIsShortOfComplete(c: Config, s: State)
    requires |c.files| > 0 && s == Start(c, true)
    ensures Inv(c, s) && Total(s) < |c.files| && SuccessCount(s.reports) == 0
  {
    assert Start(c, true) == State(Connecting, 0, 0, 0, 0, [], [], false, false, 0);
    assert SuccessCount([]) == 0;
    StartInv(c, true);
  }

  /**
   * From the start of the script with a non-empty selection, a run that ends with
   * nothing pending and nothing dropped has reported success exactly once without
   * `flatten`, and at least once with it.
   */
  lemma FromStartReportsOnce(c: Config, s: State, es: seq<Event>)
    requires |c.files| > 0 && s == Start(c, true) && CanRun(c, s, es)
    requires Run(c, s, es).phase == Uploading && Run(c, s, es).pending == [] && Run(c, s, es).dropped == 0
    ensures SuccessCount(Run(c, s, es).reports) >= 1
    ensures !c.flatten ==> SuccessCount(Run(c, s, es).reports) == 1
  {
    StartIsShortOfComplete(c, s);
    QuiescentRunReports(c, s, es);
  }

  // ---------------------------------------------------------------------------
  // Particular behaviours
  // ---------------------------------------------------------------------------

  /**
   * With `clean` set, a failed `c.rmdir` fails the task and destroys the
   * connection, and `uploadFiles` still issues every operation.
   */
  lemma FailedCleanStillUploads(c: Config)
    requires c.clean
    ensures CanRun(c, Start(c, true), [Ready, RmdirDone(true)])
    ensures var t := Run(c, Start(c, true), [Ready, RmdirDone(true)]);
      && t.phase == Uploading && t.destroyed
      && |t.reports| > 0 && t.reports[0] == Failed(CleanFailed(c.remotePath))
      && t.pending == RootOps(c) + DispatchOps(c, |c.files|)
  {
    var s0 := Start(c, true);
    var s1 := Handle(c, s0, Ready);
    var s2 := Handle(c, s1, RmdirDone(true));
    assert s1 == s0.(phase := Cleaning, pending := [Rmdir(c.remotePath)]);
    var r := s1.(pending := [], destroyed := true, reports := [Failed(CleanFailed(c.remotePath))]);
    assert s1.reports + [Failed(CleanFailed(c.remotePath))] == r.reports;
    assert s2 == UploadFilesStep(c, r);
    DispatchClosedForm(c, r, |c.files|);
    assert [Ready, RmdirDone(true)][1..] == [RmdirDone(true)];
    assert [RmdirDone(true)][1..] == [];
    assert Run(c, s0, [Ready, RmdirDone(true)]) == s2;
  }

  /**
   * Without `flatten`, a directory whose `c.mkdir` fails is still counted as
   * created: the failure is reported, and then the success that counts it.
   */
  lemma MkdirFailureStillCounted(c: Config, dir: string)
    requires !c.flatten && !c.clean && c.files == [dir] && c.kind(dir) == Directory
    ensures CanRun(c, Start(c, true), [Ready, MkdirDone(0, true)])
    ensures var t := Run(c, Start(c, true), [Ready, MkdirDone(0, true)]);
      && t.reports == [Failed(MkdirFailed(c.remoteFile(dir))), Succeeded(c.host, c.remotePath, 0, 0, 1, 0)]
      && t.ended && t.pending == []
  {
    var s0 := Start(c, true);
    var s1 := Handle(c, s0, Ready);
    assert DispatchSteps(c, s0, 0).pending == [];
    assert s1.pending == [Mkdir(c.remoteFile(dir))];
    assert [Ready, MkdirDone(0, true)][1..] == [MkdirDone(0, true)];
    assert [MkdirDone(0, true)][1..] == [];
  }

  /**
   * With `flatten`, the root `c.mkdir` runs `checkDone` too: when it completes after
   * the last upload, the success is reported, and the connection ended, twice.
   */
  lemma FlattenRootMkdirReportsAgain(c: Config, file: string)
    requires c.flatten && !c.clean && c.overwrite && c.files == [file] && c.kind(file) == File
    ensures CanRun(c, Start(c, true), [Ready, PutDone(1, false), MkdirDone(0, false)])
    ensures var t := Run(c, Start(c, true), [Ready, PutDone(1, false), MkdirDone(0, false)]);
      var success := Succeeded(c.host, c.remotePath, 1, 0, 0, 0);
      t.reports == [success, success] && t.pending == []
  {
    var s0 := Start(c, true);
    var s1 := Handle(c, s0, Ready);
    assert DispatchSteps(c, s0, 0).pending == [Mkdir(c.remotePath)];
    assert s1.pending == [Mkdir(c.remotePath), Put(file, c.remoteFile(file))];
    var s2 := Handle(c, s1, PutDone(1, false));
    assert s2.pending == [Mkdir(c.remotePath)];
    assert [Ready, PutDone(1, false), MkdirDone(0, false)][1..] == [PutDone(1, false), MkdirDone(0, false)];
    assert [PutDone(1, false), MkdirDone(0, false)][1..] == [MkdirDone(0, false)];
    assert [MkdirDone(0, false)][1..] == [];
  }

  /** With `flatten`, `uploadFiles` issues nothing for a list of directories. */
  lemma {:induction false} DispatchOpsOfFlattenedDirectories(c: Config, n: nat)
    requires c.flatten && n <= |c.files|
    requires forall i :: 0 <= i < n ==> c.kind(c.files[i]) == Directory
    ensures DispatchOps(c, n) == []
  {
    if n > 0 {
      DispatchOpsOfFlattenedDirectories(c, n - 1);
    }
  }

  /**
   * With `flatten` and only directories selected, `uploadFiles` itself reports
   * success once the last directory is counted as skipped, and the root
   * `c.mkdir`, the only operation issued, then reports it a second time. This
   * holds from the connecting phase with nothing counted (the start of the script,
   * say), and it needs no particular completion order, as only one operation is
   * ever pending.
   */
  lemma FlattenDirectoriesReportTwice(c: Config, s: State)
    requires c.flatten && !c.clean && |c.files| > 0
    requires forall i :: 0 <= i < |c.files| ==> c.kind(c.files[i]) == Directory
    requires s.phase == Connecting && Total(s) == 0 && s.pending == [] && s.dropped == 0
    ensures CanRun(c, s, [Ready, MkdirDone(0, false)])
    ensures var t := Run(c, s, [Ready, MkdirDone(0, false)]);
      var success := Succeeded(c.host, c.remotePath, 0, 0, 0, |c.files|);
      && t.reports == s.reports + [success, success] && t.pending == []
      && SuccessCount(t.reports) == SuccessCount(s.reports) + 2
  {
    var success := Succeeded(c.host, c.remotePath, 0, 0, 0, |c.files|);
    CountKindAll(c.files, |c.files|, c.kind, Directory);
    FlattenDirectoriesUpload(c, s);
    ReadyUploadsAtOnce(c, s);
    var s1 := Handle(c, s, Ready);
    RootMkdirReportsAgain(c, s1);
    assert SuccessReport(c, s1) == success;
    RunOne(c, s1, MkdirDone(0, false));
    RunCons(c, s, Ready, [MkdirDone(0, false)]);
    assert [Ready] + [MkdirDone(0, false)] == [Ready, MkdirDone(0, false)];
    assert s.reports + [success] + [success] == s.reports + [success, success];
    SuccessCountTwoMore(s.reports, success);
  }

  /** Two more success reports count as two more. */
  lemma SuccessCountTwoMore(reports: seq<Report>, r: Report)
    requires r.Succeeded?
    ensures SuccessCount(reports + [r, r]) == SuccessCount(reports) + 2
  {
    SuccessCountSnoc(reports, r);
    SuccessCountSnoc(reports + [r], r);
    assert reports + [r] + [r] == reports + [r, r];
  }

  /**
   * With `flatten` and only directories selected, `uploadFiles` counts every entry
   * as a skipped directory, reports success and leaves just the root `c.mkdir`
   * pending.
   */
  lemma FlattenDirectoriesUpload(c: Config, s: State)
    requires c.flatten && |c.files| > 0
    requires CountKind(c.files, |c.files|, c.kind, Directory) == |c.files|
    requires Total(s) == 0 && s.pending == [] && s.dropped == 0
    ensures UploadFilesStep(c, s)
         == s.(phase := Uploading, directoriesSkipped := |c.files|, pending := [Mkdir(c.remotePath)],
               reports := s.reports + [Succeeded(c.host, c.remotePath, 0, 0, 0, |c.files|)], ended := true)
  {
    var n := |c.files|;
    CountKindAll(c.files, n, c.kind, Directory);
    CountKindsDisjoint(c.files, n, c.kind, Directory, Other);
    DispatchOpsOfFlattenedDirectories(c, n);
    DispatchClosedForm(c, s, n);
  }

  /**
   * With `flatten`, once everything is counted and only the root `c.mkdir` is
   * pending, its callback reports the same success again and leaves nothing pending.
   */
  lemma RootMkdirReportsAgain(c: Config, s: State)
    requires c.flatten && s.phase == Uploading && s.pending == [Mkdir(c.remotePath)]
    requires Total(s) == |c.files|
    ensures Enabled(s, MkdirDone(0, false))
    ensures var t := MkdirDoneStep(c, s, 0, false);
      t.reports == s.reports + [SuccessReport(c, s)] && t.pending == []
  {
    assert MkdirCounted(c, s, 0, false) == s.(pending := []);
  }

  /** Without `clean`, the `ready` handler is `uploadFiles`. */
  lemma ReadyUploadsAtOnce(c: Config, s: State)
    requires !c.clean && s.phase == Connecting
    ensures Enabled(s, Ready) && Handle(c, s, Ready) == UploadFilesStep(c, s)
  {
  }

  /**
   * With `flatten` and nothing selected, the root `c.mkdir` alone reports success
   * with every counter at zero.
   */
  lemma FlattenEmptySelectionReports(c: Config)
    requires c.flatten && !c.clean && c.files == []
    ensures CanRun(c, Start(c, true), [Ready, MkdirDone(0, false)])
    ensures Run(c, Start(c, true), [Ready, MkdirDone(0, false)]).reports
            == [Succeeded(c.host, c.remotePath, 0, 0, 0, 0)]
  {
    var s0 := Start(c, true);
    var s1 := Handle(c, s0, Ready);
    assert s1 == DispatchSteps(c, s0, 0);
    assert s1.phase == Uploading && s1.pending == [Mkdir(c.remotePath)];
    var s2 := MkdirCounted(c, s1, 0, false);
    assert Total(s2) == 0 && s2.reports == [];
    var t := MkdirDoneStep(c, s1, 0, false);
    assert t.reports == [SuccessReport(c, s2)];
    RunOne(c, s1, MkdirDone(0, false));
    RunCons(c, s0, Ready, [MkdirDone(0, false)]);
    assert [Ready] + [MkdirDone(0, false)] == [Ready, MkdirDone(0, false)];
  }

  /**
   * Without `flatten` and with nothing selected, `uploadFiles` issues nothing and
   * never calls `checkDone`: the task reports nothing and no callback can follow.
   */
  lemma EmptySelectionNeverReports(c: Config)
    requires !c.flatten && !c.clean && c.files == []
    ensures var t := Handle(c, Start(c, true), Ready);
      t.reports == [] && t.pending == [] && forall e :: !Enabled(t, e)
  {
  }

  /**
   * With overwrite off, the `c.list` callback counts the file as skipped exactly
   * when the name of its remote file is in the listing; otherwise it uploads the
   * file to the same remote path, reporting nothing.
   */
  lemma ListDoneSkipsIffListed(c: Config, s: State, k: nat, names: seq<string>)
    requires Enabled(s, ListDone(k, names))
    ensures var op := s.pending[k];
      var t := ListDoneStep(c, s, k, names);
      && (t.filesSkipped == s.filesSkipped + 1 <==> Basename(op.remoteFile) in names)
      && (Basename(op.remoteFile) in names ==> t.pending == RemoveAt(s.pending, k))
      && (Basename(op.remoteFile) !in names ==>
            && t.pending == RemoveAt(s.pending, k) + [Put(op.file, op.remoteFile)]
            && t.reports == s.reports && Total(t) == Total(s))
  {
  }

  /**
   * With `flatten`, a directory entry is counted as skipped at once, with no
   * operation issued for it, and `checkDone` runs.
   */
  lemma FlattenSkipsDirectoryWithoutMkdir(c: Config, s: State, dir: string)
    requires c.flatten && c.kind(dir) == Directory
    ensures var t := DispatchEntryStep(c, s, dir);
      && t.pending == s.pending
      && t.directoriesSkipped == s.directoriesSkipped + 1
      && Total(t) == Total(s) + 1
      && (|t.reports| > |s.reports| <==> Total(s) + 1 == |c.files|)
  {
  }

  /** With `flatten`, the `c.mkdir` callback (only the root is ever created) counts nothing. */
  lemma FlattenMkdirCountsNothing(c: Config, s: State, k: nat, err: bool)
    requires c.flatten && Enabled(s, MkdirDone(k, err))
    ensures Total(MkdirDoneStep(c, s, k, err)) == Total(s)
  {
    CheckDoneReportsWhenAllCounted(c, MkdirCounted(c, s, k, err));
  }

  /**
   * A failed `c.put` ends the connection and fails the task, and counts nothing:
   * the file is dropped, so the task can no longer report success.
   */
  lemma FailedUploadCountsNothing(c: Config, s: State, k: nat)
    requires Enabled(s, PutDone(k, true))
    ensures var t := PutDoneStep(c, s, k, true);
      && Total(t) == Total(s) && t.dropped == s.dropped + 1 && t.ended
      && t.reports == s.reports + [Failed(UploadFailed(s.pending[k].remoteFile))]
  {
  }
}
