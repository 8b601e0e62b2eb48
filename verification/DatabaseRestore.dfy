/** The agent's database restore (internal/agent/pipeline/pipeline.go): what one run does to its
    target for every outcome of every external call and every point of cancellation. */
module DatabaseRestore {
  import opened RestorePhases
  import opened PathMapping

  // ----- snapshots -----------------------------------------------------------------------

  /** One export listed in a manifest; `regular` says whether its file is a regular file on disk and
      `content` what importing it would produce. */
  datatype Export = Export(database: string, file: Path, regular: bool, content: Content)

  datatype Manifest = Manifest(adapter: string, databases: seq<Export>)

  /** restic restore, findRestoredManifest, ReadFile and Unmarshal of a snapshot. */
  datatype Fetch = NotDownloaded | NoManifest | Fetched(manifest: Manifest)

  /** The test singleDatabaseArtifact makes on the path of an export. */
  predicate SafeArtifactPath(f: Path) {
    f.elems != [""] && f.elems != [] && f.elems != [".."] && !f.rooted && Clean(f) == f && f.elems[0] != ".."
  }

  function SingleDatabaseArtifact(m: Manifest): Option<Export> {
    if |m.databases| != 1 then None
    else
      var e := m.databases[0];
      if e.database == "globals" || e.database == "all" then None
      else if !SafeArtifactPath(e.file) || !e.regular then None
      else Some(e)
  }

  /** An accepted artifact is a file strictly below the directory of its manifest. */
  lemma ArtifactStaysInSnapshot(m: Manifest, root: Path)
    requires SingleDatabaseArtifact(m).Some?
    ensures var file := Join(root, SingleDatabaseArtifact(m).value.file.elems);
            Covers(Clean(root), file) && Rel(Clean(root), file) == SingleDatabaseArtifact(m).value.file.elems != []
  {
    var f := SingleDatabaseArtifact(m).value.file;
    CleanNormal(f);
    var n: nat :| NormalFrom(f, n);
    assert n == 0;
    assert f.elems[0..] == f.elems;
    JoinNames(root, f.elems);
    assert Name(f.elems[0]);
  }

  // ----- outcomes of the external calls --------------------------------------------------

  datatype Preflight = NotOffered | Passed | FailedOwn(code: ErrorCode) | Occupied | FailedOther

  datatype BackupCall = NotSaved | Saved(id: string, manifest: Manifest)

  /** `leaves` is what the target holds afterwards, whether or not the import reported success. */
  datatype ImportCall = ImportCall(ok: bool, leaves: Option<Content>, cancelled: bool)

  datatype VerifyCall = VerifyCall(ok: bool, cancelled: bool)

  datatype RemoveCall = RemoveCall(ok: bool, leaves: Option<Content>)

  datatype RollbackCalls = RollbackCalls(
    remove: RemoveCall, dirReady: bool, download: bool, manifestRead: bool, reimport: ImportCall, recheck: bool)

  /** One outcome for every call runDatabaseRestore can make; a `cancelled` flag says that the run's
      context was done, or the error was a cancellation, right after that call. */
  datatype Calls = Calls(
    targetMapped: bool, targetAllowed: bool, adapterKnown: bool, engineOffered: bool, stagingReady: bool,
    download: Fetch, lockGranted: bool, preflight: Preflight, existsAnswered: bool,
    backup: BackupCall, backupCancelled: bool, firstImport: ImportCall, firstVerify: VerifyCall,
    rollback: RollbackCalls)

  datatype Task = Task(kind: string, hasSpec: bool, hasRunId: bool, replaceExisting: bool)

  datatype Outcome =
    | Completed(phase: Phase, rollbackId: Option<string>)
    | Inspected
    | Refused(code: ErrorCode, phase: Phase, rollbackId: Option<string>)

  datatype Event =
    | Reported(phase: Phase)
    | Protected(id: string, content: Content)
    | Imported(artifact: Export)
    | Checked(artifact: Export)
    | Removed

  predicate Writes(e: Event) {
    e.Imported? || e.Removed?
  }

  // ----- the target and the repository ---------------------------------------------------

  /** What the run acts on: the target and the source repository, with a log of what was done. The
      methods follow the contract of backup.DatabaseRestorer and of restic. */
  class Site {
    var target: Option<Content>
    var repo: map<string, Manifest>
    var log: seq<Event>

    constructor (target: Option<Content>, repo: map<string, Manifest>)
      ensures this.target == target && this.repo == repo && this.log == []
    {
      this.target, this.repo, this.log := target, repo, [];
    }

    method Progress(phase: Phase)
      modifies this`log
      ensures log == old(log) + [Reported(phase)]
    {
      log := log + [Reported(phase)];
    }

    /** Import may leave anything behind, even when it reports success. */
    method Import(a: Export, call: ImportCall) returns (ok: bool)
      modifies this`target, this`log
      ensures ok == call.ok && target == call.leaves && log == old(log) + [Imported(a)]
    {
      target := call.leaves;
      log := log + [Imported(a)];
      ok := call.ok;
    }

    /** VerifyRestored may fail for any reason but succeeds only on the artifact's content. */
    method VerifyRestored(a: Export, call: bool) returns (ok: bool)
      modifies this`log
      ensures ok == (call && target == Some(a.content))
      ensures log == if ok then old(log) + [Checked(a)] else old(log)
    {
      ok := call && target == Some(a.content);
      if ok {
        log := log + [Checked(a)];
      }
    }

    /** RemoveTarget succeeds only when the target is gone. */
    method RemoveTarget(call: RemoveCall) returns (ok: bool)
      modifies this`target, this`log
      ensures ok == call.ok && target == (if ok then None else call.leaves) && log == old(log) + [Removed]
    {
      ok := call.ok;
      target := if ok then None else call.leaves;
      log := log + [Removed];
    }

    /** uploadProtectionBackup: exports what the target holds now and stores it; an empty id is an
        error. */
    method UploadProtectionBackup(call: BackupCall) returns (id: Option<string>)
      requires target.Some?
      modifies this`repo, this`log
      ensures id == if call.Saved? && call.id != "" then Some(call.id) else None
      ensures id.Some? ==> repo == old(repo)[call.id := Holding(call.manifest, target.value)]
      ensures id.Some? ==> log == old(log) + [Reported(PhasePreBackup), Protected(call.id, target.value)]
      ensures id.None? ==> repo == old(repo) && log == old(log) + [Reported(PhasePreBackup)]
    {
      Progress(PhasePreBackup);
      if call.NotSaved? || call.id == "" {
        return None;
      }
      repo := repo[call.id := Holding(call.manifest, target.value)];
      log := log + [Protected(call.id, target.value)];
      return Some(call.id);
    }
  }

  /** A protection manifest: whatever it lists, it was exported from a database holding c. */
  function Holding(m: Manifest, c: Content): Manifest {
    Manifest(m.adapter, seq(|m.databases|, i requires 0 <= i < |m.databases| => m.databases[i].(content := c)))
  }

  class RestoreSpec {
    var artifact: Export
    var targetIsNew: bool

    constructor (artifact: Export)
      ensures this.artifact == artifact && !this.targetIsNew
    {
      this.artifact, this.targetIsNew := artifact, false;
    }
  }

  // ----- failure codes -------------------------------------------------------------------

  function RestoreFailureCode(phase: Phase, category: ErrorCode): ErrorCode {
    match phase
    case PhaseRolledBack => category
    case PhaseNewTargetCleaned => category
    case _ => RollbackFailedCode
  }

  // ----- what the log must show ----------------------------------------------------------

  ghost predicate NoWrites(log: seq<Event>) {
    forall i :: 0 <= i < |log| ==> !Writes(log[i])
  }

  /** Nothing is written before a protection snapshot of `before` has its id. */
  ghost predicate ProtectedFirst(log: seq<Event>, before: Content) {
    forall i :: 0 <= i < |log| && Writes(log[i]) ==>
      exists j :: 0 <= j < i && log[j].Protected? && log[j].id != "" && log[j].content == before
  }

  /** The last thing done to the target was to import a and to check it. */
  ghost predicate EndsWithCheckOf(log: seq<Event>, a: Export) {
    |log| >= 2 && log[|log| - 2] == Imported(a) && log[|log| - 1] == Checked(a)
  }

  /** The rollback imported and checked the artifact of the snapshot with this id, taken by this run
      before anything was written. */
  ghost predicate RolledBackTo(log: seq<Event>, repo: map<string, Manifest>, id: string) {
    && id in repo
    && SingleDatabaseArtifact(repo[id]).Some?
    && EndsWithCheckOf(log, SingleDatabaseArtifact(repo[id]).value)
    && (exists i, c :: 0 <= i < |log| && log[i] == Protected(id, c) && NoWrites(log[..i]))
  }

  /** The chosen artifact of the downloaded snapshot. */
  function Chosen(c: Calls): Option<Export> {
    if c.download.Fetched? then SingleDatabaseArtifact(c.download.manifest) else None
  }

  function PhaseOf(r: Outcome): Phase
    requires !r.Inspected?
  {
    r.phase
  }

  /** The reported phase tells the truth about the target and about how it got there. */
  ghost predicate Faithful(r: Outcome, before: Option<Content>, after: Option<Content>, repo: map<string, Manifest>,
                           log: seq<Event>, chosen: Option<Export>) {
    match r
    case Inspected => after == before && NoWrites(log)
    case Completed(phase, _) =>
      phase.PhaseSucceeded? && chosen.Some? && after == Some(chosen.value.content) && EndsWithCheckOf(log, chosen.value)
    case Refused(_, phase, id) =>
      match phase
      case PhaseFailed => after == before && NoWrites(log)
      case PhasePreBackupFailed => before.Some? && after == before && NoWrites(log)
      case PhaseNewTargetCleaned => before.None? && after.None? && |log| > 0 && log[|log| - 1] == Removed
      case PhaseRolledBack => before.Some? && after == before && id.Some? && RolledBackTo(log, repo, id.value)
      case PhaseRollbackFailed => Reported(PhaseRollingBack) in log && (before.Some? ==> id.Some?)
      case _ => false
  }

  /** In the words of the server: whatever phase comes back is truthful about the target. */
  lemma FaithfulIsTruthful(r: Outcome, before: Option<Content>, after: Option<Content>, repo: map<string, Manifest>,
                           log: seq<Event>, chosen: Option<Export>)
    requires !r.Inspected? && Faithful(r, before, after, repo, log, chosen)
    ensures IsTerminalPhase(PhaseOf(r)) && !PhaseOf(r).PhaseManualRecoveryDone?
    ensures chosen.Some? ==> Truthful(PhaseOf(r), before, after, chosen.value.content)
    ensures chosen.None? ==> PhaseOf(r) != PhaseSucceeded
  {
  }

  // ----- rollback ------------------------------------------------------------------------

  predicate RollbackCanRestore(c: RollbackCalls, isNew: bool, protection: Option<Manifest>) {
    if isNew then c.remove.ok
    else
      && protection.Some? && c.dirReady && c.download && c.manifestRead
      && SingleDatabaseArtifact(protection.value).Some?
      && c.reimport.ok && c.recheck
      && c.reimport.leaves == Some(SingleDatabaseArtifact(protection.value).value.content)
  }

  /** rollbackDatabaseRestore. It runs under its own context, so no cancellation reaches it. */
  method RollbackDatabaseRestore(site: Site, spec: RestoreSpec, id: Option<string>, c: RollbackCalls) returns (phase: Phase)
    requires id.Some? ==> id.value != "" && id.value in site.repo
    modifies site`target, site`log, spec`targetIsNew
    ensures Reported(PhaseRollingBack) in site.log
    ensures |old(site.log)| < |site.log| && site.log[..|old(site.log)| + 1] == old(site.log) + [Reported(PhaseRollingBack)]
    ensures var protection := if id.Some? then Some(site.repo[id.value]) else None;
            RollbackCanRestore(c, old(spec.targetIsNew), protection) <==> phase != PhaseRollbackFailed
    ensures phase == PhaseRollbackFailed || phase == if old(spec.targetIsNew) then PhaseNewTargetCleaned else PhaseRolledBack
    ensures phase == PhaseNewTargetCleaned ==> site.target.None? && site.log[|site.log| - 1] == Removed
    ensures phase == PhaseRolledBack ==>
              id.Some? && SingleDatabaseArtifact(site.repo[id.value]).Some? &&
              site.target == Some(SingleDatabaseArtifact(site.repo[id.value]).value.content) &&
              EndsWithCheckOf(site.log, SingleDatabaseArtifact(site.repo[id.value]).value)
  {
    site.Progress(PhaseRollingBack);
    assert site.log[|site.log| - 1] == Reported(PhaseRollingBack);
    if spec.targetIsNew {
      var removed := site.RemoveTarget(c.remove);
      if !removed {
        return PhaseRollbackFailed;
      }
      spec.targetIsNew := false;
      return PhaseNewTargetCleaned;
    }
    if id.None? || !c.dirReady || !c.download || !c.manifestRead {
      return PhaseRollbackFailed;
    }
    var artifact := SingleDatabaseArtifact(site.repo[id.value]);
    if artifact.None? {
      return PhaseRollbackFailed;
    }
    var imported := site.Import(artifact.value, c.reimport);
    if !imported {
      return PhaseRollbackFailed;
    }
    var checked := site.VerifyRestored(artifact.value, c.recheck);
    return if checked then PhaseRolledBack else PhaseRollbackFailed;
  }

  // ----- the restore ---------------------------------------------------------------------

  function SafeFail(code: ErrorCode): Outcome {
    Refused(code, PhaseFailed, None)
  }

  /** The checks made before the local mutex is taken; None when all pass. */
  function Refusal(task: Task, c: Calls): Option<ErrorCode> {
    if !task.hasSpec then Some(InvalidParams)
    else if task.kind == "sqlite" && (!c.targetMapped || !c.targetAllowed) then Some(PathNotAllowed)
    else if !c.adapterKnown || !c.engineOffered then Some(InvalidPlan)
    else if !c.stagingReady then Some(Internal)
    else if c.download.NotDownloaded? then Some(RestoreFailed)
    else if c.download.NoManifest? || c.download.manifest.adapter != task.kind then Some(VerificationFailed)
    else if Chosen(c).None? then Some(UnsupportedManifest)
    else None
  }

  /** The checks made under the mutex before anything is written; None when all pass. */
  function LateRefusal(task: Task, c: Calls, present: bool): Option<ErrorCode> {
    if !task.hasRunId then Some(InvalidParams)
    else if !c.lockGranted then Some(CodeCancelled)
    else match c.preflight
      case FailedOwn(code) => Some(code)
      case Occupied => Some(TargetBusy)
      case FailedOther => Some(PreflightFailed)
      case _ =>
        if !c.existsAnswered then Some(VerificationFailed)
        else if present && !task.replaceExisting then Some(TargetExists)
        else None
  }

  /** Import and check both went through on the chosen content. */
  predicate ImportStands(c: Calls) {
    c.firstImport.ok && c.firstVerify.ok && Chosen(c).Some? && c.firstImport.leaves == Some(Chosen(c).value.content)
  }

  predicate ProtectionTaken(c: Calls) {
    c.backup.Saved? && c.backup.id != ""
  }

  /** The outcome the calls and the original target determine. */
  function Verdict(task: Task, dryRun: bool, c: Calls, before: Option<Content>): Outcome {
    if Refusal(task, c).Some? then SafeFail(Refusal(task, c).value)
    else if dryRun then Inspected
    else LockedVerdict(task, c, before)
  }

  function LockedVerdict(task: Task, c: Calls, before: Option<Content>): Outcome {
    if LateRefusal(task, c, before.Some?).Some? then SafeFail(LateRefusal(task, c, before.Some?).value)
    else if before.Some? && !ProtectionTaken(c) then
      Refused(if c.backupCancelled then CodeCancelled else PreRestoreBackupFailed, PhasePreBackupFailed, None)
    else WriteVerdict(c, before)
  }

  function WriteVerdict(c: Calls, before: Option<Content>): Outcome
    requires before.Some? ==> ProtectionTaken(c)
  {
    if ImportStands(c) then Completed(PhaseSucceeded, if before.Some? then Some(c.backup.id) else None)
    else if c.firstImport.ok then FailureVerdict(c, before, c.firstVerify.cancelled, VerificationFailed)
    else FailureVerdict(c, before, c.firstImport.cancelled, ImportFailed)
  }

  function FailureVerdict(c: Calls, before: Option<Content>, cancelled: bool, category: ErrorCode): Outcome
    requires before.Some? ==> ProtectionTaken(c)
  {
    var protection := if before.Some? then Some(Holding(c.backup.manifest, before.value)) else None;
    var undone := RollbackCanRestore(c.rollback, before.None?, protection);
    Refused(
      if cancelled then CodeCancelled else if undone then category else RollbackFailedCode,
      if !undone then PhaseRollbackFailed else if before.Some? then PhaseRolledBack else PhaseNewTargetCleaned,
      if before.Some? then Some(c.backup.id) else None)
  }

  /** runDatabaseRestore. */
  method RunDatabaseRestore(site: Site, task: Task, dryRun: bool, c: Calls) returns (r: Outcome)
    requires site.log == []
    modifies site
    ensures Faithful(r, old(site.target), site.target, site.repo, site.log, Chosen(c))
    ensures old(site.target).Some? ==> ProtectedFirst(site.log, old(site.target).value)
    ensures dryRun ==> site.target == old(site.target) && NoWrites(site.log)
    ensures r == Verdict(task, dryRun, c, old(site.target))
  {
    if !task.hasSpec {
      return SafeFail(InvalidParams);
    }
    if task.kind == "sqlite" && (!c.targetMapped || !c.targetAllowed) {
      return SafeFail(PathNotAllowed);
    }
    if !c.adapterKnown || !c.engineOffered {
      return SafeFail(InvalidPlan);
    }
    if !c.stagingReady {
      return SafeFail(Internal);
    }
    if c.download.NotDownloaded? {
      return SafeFail(RestoreFailed);
    }
    if c.download.NoManifest? || c.download.manifest.adapter != task.kind {
      return SafeFail(VerificationFailed);
    }
    var artifact := SingleDatabaseArtifact(c.download.manifest);
    if artifact.None? {
      return SafeFail(UnsupportedManifest);
    }
    if dryRun {
      return Inspected;
    }
    if !task.hasRunId {
      return SafeFail(InvalidParams);
    }
    if !c.lockGranted {
      return SafeFail(CodeCancelled);
    }
    r := RestoreUnderLock(site, task, c, artifact.value);
  }

  /** The part of runDatabaseRestore that holds the agent-wide restore mutex. */
  method RestoreUnderLock(site: Site, task: Task, c: Calls, artifact: Export) returns (r: Outcome)
    requires site.log == [] && task.hasRunId && c.lockGranted && Chosen(c) == Some(artifact)
    modifies site
    ensures Faithful(r, old(site.target), site.target, site.repo, site.log, Chosen(c)) && !r.Inspected?
    ensures old(site.target).Some? ==> ProtectedFirst(site.log, old(site.target).value)
    ensures r == LockedVerdict(task, c, old(site.target))
  {
    var spec := new RestoreSpec(artifact);
    match c.preflight {
      case FailedOwn(code) => return SafeFail(code);
      case Occupied => return SafeFail(TargetBusy);
      case FailedOther => return SafeFail(PreflightFailed);
      case _ =>
    }
    if !c.existsAnswered {
      return SafeFail(VerificationFailed);
    }
    var exists_ := site.target.Some?;
    if exists_ && !task.replaceExisting {
      return SafeFail(TargetExists);
    }
    spec.targetIsNew := !exists_;
    var id: Option<string> := None;
    if exists_ {
      site.Progress(PhasePreBackup);
      id := site.UploadProtectionBackup(c.backup);
      if id.None? {
        return Refused(if c.backupCancelled then CodeCancelled else PreRestoreBackupFailed, PhasePreBackupFailed, None);
      }
      site.Progress(PhasePreBackup);
    }
    site.Progress(PhaseRestoring);
    r := ImportOrRollBack(site, spec, id, c, site.target);
  }

  /** Everything is ready for the write: nothing has been written and an existing target is protected. */
  ghost predicate ReadyToWrite(log: seq<Event>, repo: map<string, Manifest>, id: Option<string>, c: Calls, before: Option<Content>) {
    && NoWrites(log)
    && id.Some? == before.Some?
    && (before.Some? ==>
          && ProtectionTaken(c) && id == Some(c.backup.id)
          && id.value in repo && repo[id.value] == Holding(c.backup.manifest, before.value)
          && Protected(id.value, before.value) in log)
  }

  lemma LogStaysProtected(log: seq<Event>, longer: seq<Event>, repo: map<string, Manifest>, id: Option<string>, c: Calls, before: Option<Content>)
    requires ReadyToWrite(log, repo, id, c, before) && log <= longer
    ensures before.Some? ==> ProtectedFirst(longer, before.value)
    ensures before.Some? ==> exists i, d :: 0 <= i < |longer| && longer[i] == Protected(id.value, d) && NoWrites(longer[..i])
  {
    if before.Some? {
      var i :| 0 <= i < |log| && log[i] == Protected(id.value, before.value);
      assert longer[i] == Protected(id.value, before.value);
      forall k | 0 <= k < |longer| && Writes(longer[k])
        ensures exists j :: 0 <= j < k && longer[j].Protected? && longer[j].id != "" && longer[j].content == before.value
      {
        assert i < k && longer[i].Protected?;
      }
      assert NoWrites(longer[..i]) by {
        forall k | 0 <= k < i ensures !Writes(longer[..i][k]) { assert longer[k] == log[k]; }
      }
    }
  }

  /** The protection artifact carries the content the target had. */
  lemma ProtectionHoldsOriginal(m: Manifest, c: Content)
    requires SingleDatabaseArtifact(Holding(m, c)).Some?
    ensures SingleDatabaseArtifact(Holding(m, c)).value.content == c
  {
  }

  /** The write itself: import, check, and on either failure the rollback. */
  method ImportOrRollBack(site: Site, spec: RestoreSpec, id: Option<string>, c: Calls, ghost before: Option<Content>) returns (r: Outcome)
    requires ReadyToWrite(site.log, site.repo, id, c, before) && site.target == before
    requires spec.targetIsNew == before.None? && Chosen(c) == Some(spec.artifact)
    modifies site`target, site`log, spec
    ensures Faithful(r, before, site.target, site.repo, site.log, Chosen(c)) && !r.Inspected?
    ensures before.Some? ==> ProtectedFirst(site.log, before.value)
    ensures r == WriteVerdict(c, before)
  {
    ghost var prepared := site.log;
    var imported := site.Import(spec.artifact, c.firstImport);
    if !imported {
      r := UndoImport(site, spec, id, c, c.firstImport.cancelled, ImportFailed, prepared, before);
      return;
    }
    var verified := site.VerifyRestored(spec.artifact, c.firstVerify.ok);
    if !verified {
      r := UndoImport(site, spec, id, c, c.firstVerify.cancelled, VerificationFailed, prepared, before);
      return;
    }
    LogStaysProtected(prepared, site.log, site.repo, id, c, before);
    return Completed(PhaseSucceeded, id);
  }

  /** Roll back and choose the reported code: a cancelled run says so whatever the rollback did. */
  method UndoImport(site: Site, spec: RestoreSpec, id: Option<string>, c: Calls, cancelled: bool, category: ErrorCode,
                    ghost prepared: seq<Event>, ghost before: Option<Content>) returns (r: Outcome)
    requires ReadyToWrite(prepared, site.repo, id, c, before) && prepared <= site.log
    requires spec.targetIsNew == before.None?
    modifies site`target, site`log, spec`targetIsNew
    ensures Faithful(r, before, site.target, site.repo, site.log, Chosen(c))
    ensures before.Some? ==> ProtectedFirst(site.log, before.value)
    ensures r == FailureVerdict(c, before, cancelled, category)
  {
    var phase := RollbackDatabaseRestore(site, spec, id, c.rollback);
    LogStaysProtected(prepared, site.log, site.repo, id, c, before);
    if phase == PhaseRolledBack {
      ProtectionHoldsOriginal(c.backup.manifest, before.value);
    }
    return Refused(if cancelled then CodeCancelled else RestoreFailureCode(phase, category), phase, id);
  }
}
