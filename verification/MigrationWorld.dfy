/**
  What an attempt does to the files and containers of the device.
 */
module MigrationWorld {
  import opened Migration

  // ---- Files ----------------------------------------------------------------------------

  /** Phases in which the marker has not been written. */
  predicate BeforeMarker(phase: Phase) {
    match phase
    case Idle => false
    case CommitForgetState => false
    case CommitForgetCompose => false
    case Publish(_, result) => !result.Committed?
    case Returned(result) => !result.Committed?
    case _ => true
  }

  /** The legacy files, as one migration finds them. */
  ghost predicate SameLegacy(w: World, other: World) {
    w.v1State == other.v1State && w.legacyCompose == other.legacyCompose && w.legacy == other.legacy
  }

  ghost predicate FilesInv(s: State) {
    var w := s.world;
    && (w.marker ==> w.v2State)
    && (w.v2State && !w.marker ==> SameLegacy(w, s.switched))
    && (!s.phase.Idle? ==> w.v2State && s.entry.v2State && Pending(s.entry))
    && (BeforeMarker(s.phase) ==> Pending(w) && SameLegacy(w, s.entry))
    && (s.phase.CommitForgetState? || s.phase.CommitForgetCompose? ==> w.marker)
    && (s.phase.CommitForgetCompose? ==> !w.v1State)
    && ((s.phase.Publish? || s.phase.Returned?) && s.phase.result.Committed? ==> w.marker && !w.v1State && !w.legacyCompose)
  }

  /** The files move forward only: neither the v2 state nor the marker is ever removed. */
  ghost predicate Forward(w: World, next: World) {
    (w.marker ==> next.marker) && (w.v2State ==> next.v2State)
  }

  lemma FilesKeptByPrepare(s: State, step: Step)
    requires FilesInv(s) && Enabled(s, step) && IsPrepare(step)
    ensures FilesInv(DoPrepare(s, step)) && Forward(s.world, DoPrepare(s, step).world)
  {
  }

  lemma FilesKeptByHandoff(s: State, step: Step)
    requires FilesInv(s) && Enabled(s, step) && IsHandoff(step)
    ensures FilesInv(DoHandoff(s, step)) && Forward(s.world, DoHandoff(s, step).world)
  {
  }

  lemma FilesKeptByReconcile(s: State, step: Step)
    requires FilesInv(s) && Enabled(s, step) && IsReconcile(step)
    ensures FilesInv(DoReconcile(s, step)) && Forward(s.world, DoReconcile(s, step).world)
  {
  }

  lemma FilesKeptByCommit(s: State, step: Step)
    requires FilesInv(s) && Enabled(s, step) && IsCommit(step)
    ensures FilesInv(DoCommit(s, step)) && Forward(s.world, DoCommit(s, step).world)
  {
  }

  lemma FilesKeptByRollback(s: State, step: Step)
    requires FilesInv(s) && Enabled(s, step) && IsRollback(step)
    ensures FilesInv(DoRollback(s, step)) && Forward(s.world, DoRollback(s, step).world)
  {
  }

  lemma FilesKept(s: State, step: Step)
    requires FilesInv(s) && Enabled(s, step)
    ensures FilesInv(Do(s, step)) && Forward(s.world, Do(s, step).world)
  {
    if IsPrepare(step) {
      FilesKeptByPrepare(s, step);
    } else if IsHandoff(step) {
      FilesKeptByHandoff(s, step);
    } else if IsReconcile(step) {
      FilesKeptByReconcile(s, step);
    } else if IsCommit(step) {
      FilesKeptByCommit(s, step);
    } else if IsRollback(step) {
      FilesKeptByRollback(s, step);
    }
  }

  // ---- Containers ---------------------------------------------------------------------------

  /** A rollback of this desired state finds every v2 project that runs when the attempt begins. */
  ghost predicate Recoverable(cfg: Config, entry: World) {
    forall p :: p in entry.v2Running ==>
      || p == System(cfg)
      || (p.OfInstance? && p.app in cfg.apps && (p in entry.composeFiles || p.app !in cfg.stopped))
  }

  ghost predicate CleanEntry(cfg: Config, entry: World) {
    cfg.systemName == REEFY_SYSTEM && Recoverable(cfg, entry)
  }

  /** The v2 projects of a finished handoff. */
  ghost function WantedRunning(cfg: Config): set<Project> {
    {System(cfg)} + set a | a in cfg.apps && a !in cfg.stopped :: OfInstance(a)
  }

  ghost predicate InPlace(cfg: Config, w: World, a: AppId) {
    OfInstance(a) in w.v2Running <==> a !in cfg.stopped
  }

  ghost predicate AllInPlace(cfg: Config, w: World) {
    (cfg.systemName == REEFY_SYSTEM ==> System(cfg) in w.v2Running) && forall a :: a in cfg.apps ==> InPlace(cfg, w, a)
  }

  /** Nothing has been started or stopped, no Compose file removed. */
  ghost predicate Before(entry: World, w: World) {
    && w.legacyRunning == entry.legacyRunning && w.v2Running == entry.v2Running
    && entry.composeFiles <= w.composeFiles
  }

  ghost predicate AppsWritten(cfg: Config, w: World) {
    forall a :: a in cfg.apps && a !in cfg.stopped ==> OfInstance(a) in w.composeFiles
  }

  /** A rollback would find every v2 project that runs. */
  ghost predicate Findable(cfg: Config, w: World) {
    forall p :: p in w.v2Running ==> p in Own(cfg) && p in w.composeFiles
  }

  ghost predicate HandoffOk(cfg: Config, entry: World, w: World) {
    AppsWritten(cfg, w) && System(cfg) in w.composeFiles && (CleanEntry(cfg, entry) ==> Findable(cfg, w))
  }

  ghost predicate ReconcileOk(cfg: Config, entry: World, w: World, pcs: map<AppId, AppPc>) {
    && AppsWritten(cfg, w)
    && (cfg.systemName == REEFY_SYSTEM ==> System(cfg) in w.v2Running && System(cfg) in w.composeFiles)
    && (CleanEntry(cfg, entry) ==> Findable(cfg, w))
    && (forall a :: a in pcs && pcs[a] == Finished(Good) ==> InPlace(cfg, w, a))
  }

  /** The projects that the rest of a rollback stops. */
  ghost predicate LeftToStop(cfg: Config, w: World, left: set<AppId>) {
    forall p :: p in w.v2Running ==> p in w.composeFiles && (p == System(cfg) || (p.OfInstance? && p.app in left))
  }

  ghost predicate ContainersPhaseInv(cfg: Config, entry: World, w: World, phase: Phase) {
    match phase
    case PrepareSystem => Before(entry, w)
    case PrepareApps(results) =>
      && Before(entry, w) && System(cfg) in w.composeFiles
      && (forall a :: a in results && results[a].Good? && a !in cfg.stopped ==> OfInstance(a) in w.composeFiles)
    case HandoffClean => HandoffOk(cfg, entry, w)
    case HandoffStop => HandoffOk(cfg, entry, w)
    case HandoffRemove => HandoffOk(cfg, entry, w)
    case StartSystem => HandoffOk(cfg, entry, w)
    case RemoveAbsent => HandoffOk(cfg, entry, w) && System(cfg) in w.v2Running
    case Reconcile(pcs) => ReconcileOk(cfg, entry, w, pcs)
    case CommitDown => AllInPlace(cfg, w) && (CleanEntry(cfg, entry) ==> Findable(cfg, w))
    case CommitMark => AllInPlace(cfg, w) && w.legacyRunning == {}
    case CommitForgetState => AllInPlace(cfg, w) && (entry.legacyCompose ==> w.legacyRunning == {})
    case CommitForgetCompose => AllInPlace(cfg, w) && (entry.legacyCompose ==> w.legacyRunning == {})
    case RollbackApps(left, clean, _) => clean && CleanEntry(cfg, entry) ==> LeftToStop(cfg, w, left)
    case RollbackSystem(clean, _) => clean && CleanEntry(cfg, entry) ==> LeftToStop(cfg, w, {})
    case RollbackUp(clean, _) => clean && CleanEntry(cfg, entry) ==> w.v2Running == {}
    case Publish(_, result) => ResultInv(cfg, entry, w, result)
    case Returned(result) => ResultInv(cfg, entry, w, result)
    case Idle => true
  }

  ghost predicate ResultInv(cfg: Config, entry: World, w: World, result: Result) {
    match result
    case Committed => AllInPlace(cfg, w) && (entry.legacyCompose ==> w.legacyRunning == {})
    case LegacyUntouched => w.legacyRunning == entry.legacyRunning && w.v2Running == entry.v2Running
    case RolledBack(clean) =>
      clean ==> entry.legacyCompose && entry.legacy <= w.legacyRunning && (CleanEntry(cfg, entry) ==> w.v2Running == {})
  }

  /** Only what the legacy Compose file names is started of the legacy project, and of the v2 projects only the attempt's own. */
  ghost predicate NoStrangers(cfg: Config, entry: World, w: World) {
    && w.legacyRunning <= entry.legacyRunning + LegacyServices(entry)
    && w.v2Running - Own(cfg) <= entry.v2Running
  }

  ghost predicate ContainersInv(s: State) {
    !s.phase.Idle? ==> NoStrangers(s.cfg, s.entry, s.world) && ContainersPhaseInv(s.cfg, s.entry, s.world, s.phase)
  }

  lemma ContainersKeptByPrepare(s: State, step: Step)
    requires ContainersInv(s) && Enabled(s, step) && IsPrepare(step)
    ensures ContainersInv(DoPrepare(s, step))
  {
    if step.EndPrepare? && forall a :: a in s.phase.results ==> s.phase.results[a].Good? {
      HandoffMayBegin(s);
    }
  }

  lemma HandoffMayBegin(s: State)
    requires ContainersInv(s) && Enabled(s, EndPrepare) && forall a :: a in s.phase.results ==> s.phase.results[a].Good?
    ensures HandoffOk(s.cfg, s.entry, s.world)
  {
  }

  lemma ContainersKeptByHandoff(s: State, step: Step)
    requires ContainersInv(s) && Enabled(s, step) && IsHandoff(step)
    ensures ContainersInv(DoHandoff(s, step))
  {
    assert Own(s.cfg) == Desired(s.cfg) + {System(s.cfg)};
  }

  /** A command of one app changes at most its own project, whose Compose file is there. */
  lemma AppCommanded(cfg: Config, entry: World, w: World, pcs: map<AppId, AppPc>, app: AppId, runs: bool, files: set<Project>, pc: AppPc)
    requires ReconcileOk(cfg, entry, w, pcs) && app in cfg.apps && (pc == Finished(Good) ==> (runs <==> app !in cfg.stopped))
    requires files == w.composeFiles + {OfInstance(app)} || (files == w.composeFiles && OfInstance(app) in files)
    ensures ReconcileOk(cfg, entry, Runs(w.(composeFiles := files), OfInstance(app), runs), pcs[app := pc])
  {
    var now := Runs(w.(composeFiles := files), OfInstance(app), runs);
    forall a | a in pcs && a != app && pcs[a] == Finished(Good)
      ensures InPlace(cfg, now, a)
    {
      assert InPlace(cfg, w, a);
    }
  }

  lemma StrangersStay(cfg: Config, entry: World, w: World, app: AppId, runs: bool, files: set<Project>)
    requires NoStrangers(cfg, entry, w) && app in cfg.apps
    ensures NoStrangers(cfg, entry, Runs(w.(composeFiles := files), OfInstance(app), runs))
  {
    assert OfInstance(app) in Own(cfg);
  }

  lemma ContainersKeptByApp(s: State, step: Step)
    requires ContainersInv(s) && Enabled(s, step) && (step.StopApp? || step.UpApp?)
    requires s.phase.pcs.Keys == s.cfg.apps
    ensures ContainersInv(DoReconcile(s, step))
  {
    var w, app, pc := s.world, step.app, DoReconcile(s, step).phase.pcs[step.app];
    var files := if step.StopApp? then w.composeFiles + {OfInstance(app)} else w.composeFiles;
    AppCommanded(s.cfg, s.entry, w, s.phase.pcs, app, step.runs, files, pc);
    StrangersStay(s.cfg, s.entry, w, app, step.runs, files);
    assert w.(composeFiles := w.composeFiles) == w;
  }

  lemma ContainersKeptByReconcile(s: State, step: Step)
    requires ContainersInv(s) && Enabled(s, step) && IsReconcile(step)
    requires s.phase.pcs.Keys == s.cfg.apps && SameLegacy(s.world, s.entry)
    ensures ContainersInv(DoReconcile(s, step))
  {
    if step.StopApp? || step.UpApp? {
      ContainersKeptByApp(s, step);
    } else if step.EndReconcile? {
      AppsFinished(s);
    }
  }

  lemma AppsFinished(s: State)
    requires ContainersInv(s) && Enabled(s, EndReconcile) && s.phase.pcs.Keys == s.cfg.apps
    ensures ContainersInv(DoReconcile(s, EndReconcile))
  {
  }

  lemma ContainersKeptByCommit(s: State, step: Step)
    requires ContainersInv(s) && Enabled(s, step) && IsCommit(step)
    requires s.phase.CommitDown? ==> SameLegacy(s.world, s.entry)
    ensures ContainersInv(DoCommit(s, step))
  {
  }

  lemma ContainersKeptByRollback(s: State, step: Step)
    requires ContainersInv(s) && Enabled(s, step) && IsRollback(step) && SameLegacy(s.world, s.entry)
    ensures ContainersInv(DoRollback(s, step))
  {
  }

  lemma ContainersKept(s: State, step: Step)
    requires ContainersInv(s) && FilesInv(s) && Enabled(s, step)
    requires s.phase.Reconcile? ==> s.phase.pcs.Keys == s.cfg.apps
    ensures ContainersInv(Do(s, step))
  {
    if IsPrepare(step) {
      ContainersKeptByPrepare(s, step);
    } else if IsHandoff(step) {
      ContainersKeptByHandoff(s, step);
    } else if IsReconcile(step) {
      ContainersKeptByReconcile(s, step);
    } else if IsCommit(step) {
      ContainersKeptByCommit(s, step);
    } else if IsRollback(step) {
      ContainersKeptByRollback(s, step);
    }
  }
}
