/**
  The one-time handoff from the legacy Compose project to one project per app,
  as a step relation. Every command may fail with any partial effect, app
  reconciliation interleaves freely, a crash or a reboot may come between any two steps,
  and a newer desired state may be saved between attempts.
 */
module Migration {

  type AppId = nat

  /** Legacy services are named by the app's instance id, or belong to the platform. */
  datatype Service = OfApp(app: AppId) | OfSystem(name: string)

  /** Projects by directory; an app's project is named after its instance. */
  datatype Project = SystemProject(name: nat) | OfInstance(app: AppId)

  /** The name `reefy-system`, the only one that removal of absent projects spares. */
  const REEFY_SYSTEM: nat := 0

  /** A v2 desired state: its apps, those of them that shall be stopped, its instances, and the name of its system project. */
  datatype Config = Config(apps: set<AppId>, stopped: set<AppId>, instances: set<AppId>, systemName: nat)

  /**
    Files and containers; all of it survives a crash of the data plane, and the files a
    reboot of the device, after which any containers may run. `desired` is the
    saved v2 state, `legacy` the services of the legacy Compose file.
   */
  datatype World = World(v1State: bool, v2State: bool, marker: bool, legacyCompose: bool, legacy: set<Service>, desired: Config,
                         legacyRunning: set<Service>, v2Running: set<Project>, composeFiles: set<Project>)

  datatype AppResult = Good | Bad | Overtaken

  datatype AppPc = Todo | LegacyStopped | OfferLegacyStart | Finished(result: AppResult)

  datatype Result = Committed | LegacyUntouched | RolledBack(clean: bool)

  datatype Phase =
    | Idle
    | PrepareSystem
    | PrepareApps(results: map<AppId, AppResult>)
    | HandoffClean | HandoffStop | HandoffRemove | StartSystem
    | RemoveAbsent
    | Reconcile(pcs: map<AppId, AppPc>)
    | CommitDown | CommitMark | CommitForgetState | CommitForgetCompose
    | RollbackApps(left: set<AppId>, clean: bool, report: set<AppId>)
    | RollbackSystem(clean: bool, report: set<AppId>)
    | RollbackUp(clean: bool, report: set<AppId>)
    | Publish(pending: set<AppId>, result: Result)
    | Returned(result: Result)

  /** What the current attempt has done. `ok` is the command's reported outcome. */
  datatype Event =
    | SystemPrepared
    | AppPrepared(app: AppId)
    | AppNotPrepared(app: AppId)
    | LegacyStop(services: set<Service>, ok: bool)
    | LegacyRemove(services: set<Service>, ok: bool)
    | LegacyDown(ok: bool)
    | LegacyStart(app: AppId)
    | LegacyUp(ok: bool)
    | SystemUp(ok: bool)
    | AppUp(app: AppId, ok: bool)
    | AppStop(app: AppId, ok: bool)
    | RollbackStop(app: AppId, ok: bool)
    | RollbackRemoveSystem(ok: bool)
    | ReportedFailed(app: AppId)
    | ReportedRunning(app: AppId)
    | MarkerWritten

  /**
    `cfg` is the state that the attempt works on, `entry` the world when it began, and
    `switched` the one when the first v2 state was saved.
   */
  datatype State = State(cfg: Config, world: World, phase: Phase, trace: seq<Event>, entry: World, switched: World)

  datatype Step =
    | ApplyV1(legacy: set<Service>, running: set<Service>)
    | SaveV2(desired: Config)
    | Begin
    | Crash
    | Reboot(legacyAfter: set<Service>, v2After: set<Project>)
    | SystemPrepare(ok: bool)
    | AppPrepare(app: AppId, result: AppResult, writes: bool)
    | EndPrepare
    | CleanSystem(ok: bool, systemRuns: bool)
    | StopLegacySystem(ok: bool, legacyAfter: set<Service>)
    | RemoveLegacySystem(ok: bool)
    | UpSystem(ok: bool, systemRuns: bool)
    | DropAbsent(v2After: set<Project>)
    | StopLegacyApp(app: AppId, ok: bool, legacyAfter: set<Service>)
    | StopApp(app: AppId, ok: bool, runs: bool)
    | UpApp(app: AppId, result: AppResult, runs: bool)
    | StartLegacyApp(app: AppId, legacyAfter: set<Service>)
    | EndReconcile
    | DownLegacy(ok: bool, legacyAfter: set<Service>)
    | WriteMarker
    | ForgetState
    | ForgetCompose
    | RollbackStopApp(app: AppId, ok: bool, runs: bool)
    | EndRollbackApps
    | RollbackDropSystem(ok: bool, runs: bool)
    | RollbackUpLegacy(ok: bool, legacyAfter: set<Service>)
    | PublishRunning(app: AppId)
    | EndPublish

  predicate Pending(w: World) {
    w.v1State && !w.marker
  }

  function System(cfg: Config): Project {
    SystemProject(cfg.systemName)
  }

  function Desired(cfg: Config): set<Project> {
    set a | a in cfg.apps :: OfInstance(a)
  }

  /** The projects of a desired state. */
  function Own(cfg: Config): set<Project> {
    Desired(cfg) + {System(cfg)}
  }

  function LegacyServices(w: World): set<Service> {
    if w.legacyCompose then w.legacy else {}
  }

  /** Legacy services that belong to no instance of the desired state. */
  function LegacySystem(cfg: Config, w: World): set<Service> {
    set s | s in LegacyServices(w) && !(s.OfApp? && s.app in cfg.instances)
  }

  /** The project directories that absent-project removal takes down. */
  function Absent(cfg: Config, w: World): set<Project> {
    set p | p in w.composeFiles && p !in Desired(cfg) && p != SystemProject(REEFY_SYSTEM)
  }

  /** Legacy apps whose terminal health an unfinished handoff restores. */
  function LegacyReports(cfg: Config, w: World, apps: set<AppId>): set<AppId> {
    set a | a in apps && a in cfg.apps && a !in cfg.stopped && OfApp(a) in LegacyServices(w)
  }

  function FailedApps(pcs: map<AppId, AppPc>): set<AppId> {
    set a | a in pcs && pcs[a] == Finished(Bad)
  }

  /** A stop that reports success stopped all of `services`; one that fails stopped some. */
  predicate StopEffect(ok: bool, services: set<Service>, before: set<Service>, after: set<Service>) {
    after <= before && before - services <= after && (ok ==> after == before - services)
  }

  predicate Enabled(s: State, step: Step) {
    match step
    case ApplyV1(_, _) => s.phase.Idle? && !s.world.v2State
    case SaveV2(_) => s.phase.Idle? || s.phase.Returned?
    case Begin => (s.phase.Idle? || s.phase.Returned?) && s.world.v2State && Pending(s.world)
    case Crash => true
    case Reboot(_, _) => true
    case SystemPrepare(_) => s.phase.PrepareSystem?
    case AppPrepare(app, result, writes) =>
      s.phase.PrepareApps? && app in s.cfg.apps && app !in s.phase.results
      && (result.Good? && app !in s.cfg.stopped ==> writes) && (app in s.cfg.stopped ==> !writes)
    case EndPrepare => s.phase.PrepareApps? && s.phase.results.Keys == s.cfg.apps
    case CleanSystem(ok, systemRuns) =>
      s.phase.HandoffClean? && (systemRuns ==> System(s.cfg) in s.world.v2Running) && (ok ==> !systemRuns)
    case StopLegacySystem(ok, legacyAfter) =>
      s.phase.HandoffStop? && LegacySystem(s.cfg, s.entry) != {}
      && StopEffect(ok, LegacySystem(s.cfg, s.entry), s.world.legacyRunning, legacyAfter)
    case RemoveLegacySystem(_) => s.phase.HandoffRemove?
    case UpSystem(ok, systemRuns) =>
      (s.phase.StartSystem? || (s.phase.HandoffStop? && LegacySystem(s.cfg, s.entry) == {})) && (ok ==> systemRuns)
    case DropAbsent(v2After) =>
      s.phase.RemoveAbsent? && v2After <= s.world.v2Running && s.world.v2Running - Absent(s.cfg, s.world) <= v2After
    case StopLegacyApp(app, ok, legacyAfter) =>
      s.phase.Reconcile? && app in s.phase.pcs && s.phase.pcs[app] == Todo
      && StopEffect(ok, {OfApp(app)}, s.world.legacyRunning, legacyAfter) && (ok ==> s.world.legacyCompose)
    case StopApp(app, ok, runs) =>
      s.phase.Reconcile? && app in s.phase.pcs && s.phase.pcs[app] == LegacyStopped && app in s.cfg.stopped
      && (ok ==> !runs) && (runs ==> OfInstance(app) in s.world.v2Running)
    case UpApp(app, result, runs) =>
      s.phase.Reconcile? && app in s.phase.pcs && s.phase.pcs[app] == LegacyStopped && app !in s.cfg.stopped
      && (result.Good? ==> runs)
    case StartLegacyApp(app, legacyAfter) =>
      s.phase.Reconcile? && app in s.phase.pcs && s.phase.pcs[app] == OfferLegacyStart
      && s.world.legacyRunning <= legacyAfter <= s.world.legacyRunning + {OfApp(app)} * LegacyServices(s.world)
    case EndReconcile => s.phase.Reconcile? && forall a :: a in s.phase.pcs ==> s.phase.pcs[a].Finished?
    case DownLegacy(ok, legacyAfter) =>
      s.phase.CommitDown? && s.world.legacyCompose
      && legacyAfter <= s.world.legacyRunning && (ok ==> legacyAfter == {})
    case WriteMarker => s.phase.CommitMark? || (s.phase.CommitDown? && !s.world.legacyCompose)
    case ForgetState => s.phase.CommitForgetState?
    case ForgetCompose => s.phase.CommitForgetCompose?
    case RollbackStopApp(app, ok, runs) =>
      s.phase.RollbackApps? && app in s.phase.left && OfInstance(app) in s.world.composeFiles
      && (ok ==> !runs) && (runs ==> OfInstance(app) in s.world.v2Running)
    case EndRollbackApps => s.phase.RollbackApps? && forall a :: a in s.phase.left ==> OfInstance(a) !in s.world.composeFiles
    case RollbackDropSystem(ok, runs) =>
      s.phase.RollbackSystem? && System(s.cfg) in s.world.composeFiles
      && (ok ==> !runs) && (runs ==> System(s.cfg) in s.world.v2Running)
    case RollbackUpLegacy(ok, legacyAfter) =>
      (s.phase.RollbackUp? || (s.phase.RollbackSystem? && System(s.cfg) !in s.world.composeFiles))
      && s.world.legacyRunning <= legacyAfter <= s.world.legacyRunning + LegacyServices(s.world)
      && (ok ==> s.world.legacyCompose && legacyAfter == s.world.legacyRunning + LegacyServices(s.world))
    case PublishRunning(app) => s.phase.Publish? && app in s.phase.pending
    case EndPublish => s.phase.Publish? && s.phase.pending == {}
  }

  function Runs(w: World, p: Project, runs: bool): World {
    w.(v2Running := if runs then w.v2Running + {p} else w.v2Running - {p})
  }

  function Log(s: State, e: Event, phase: Phase): State {
    s.(trace := s.trace + [e], phase := phase)
  }

  function Rollback(s: State, report: set<AppId>): State {
    s.(phase := RollbackApps(s.cfg.apps, true, report))
  }

  function SetPc(s: State, app: AppId, pc: AppPc): State
    requires s.phase.Reconcile?
  {
    s.(phase := Reconcile(s.phase.pcs[app := pc]))
  }

  predicate IsPrepare(step: Step) { step.SystemPrepare? || step.AppPrepare? || step.EndPrepare? }

  predicate IsHandoff(step: Step) {
    step.CleanSystem? || step.StopLegacySystem? || step.RemoveLegacySystem? || step.UpSystem? || step.DropAbsent?
  }

  predicate IsReconcile(step: Step) {
    step.StopLegacyApp? || step.StopApp? || step.UpApp? || step.StartLegacyApp? || step.EndReconcile?
  }

  predicate IsCommit(step: Step) { step.DownLegacy? || step.WriteMarker? || step.ForgetState? || step.ForgetCompose? }

  predicate IsRollback(step: Step) {
    step.RollbackStopApp? || step.EndRollbackApps? || step.RollbackDropSystem? || step.RollbackUpLegacy?
  }

  function DoPrepare(s: State, step: Step): State
    requires Enabled(s, step) && IsPrepare(step)
  {
    match step
    case SystemPrepare(ok) =>
      var written := s.(world := s.world.(composeFiles := s.world.composeFiles + {System(s.cfg)}));
      if ok then Log(written, SystemPrepared, PrepareApps(map[])) else written.(phase := Publish({}, LegacyUntouched))
    case AppPrepare(app, result, writes) =>
      var next := PrepareApps(s.phase.results[app := result]);
      var written := if writes then s.(world := s.world.(composeFiles := s.world.composeFiles + {OfInstance(app)})) else s;
      if result.Good? then Log(written, AppPrepared(app), next)
      else
        var refused := Log(written, AppNotPrepared(app), next);
        if result.Bad? then Log(refused, ReportedFailed(app), next) else refused
    case EndPrepare =>
      if exists a :: a in s.phase.results && !s.phase.results[a].Good? then
        var prepared := set a | a in s.phase.results && s.phase.results[a].Good?;
        s.(phase := Publish(LegacyReports(s.cfg, s.entry, prepared), LegacyUntouched))
      else s.(phase := HandoffClean)
  }

  function DoHandoff(s: State, step: Step): State
    requires Enabled(s, step) && IsHandoff(step)
  {
    match step
    case CleanSystem(ok, systemRuns) =>
      var cleaned := s.(world := Runs(s.world, System(s.cfg), systemRuns));
      if ok then cleaned.(phase := HandoffStop) else Rollback(cleaned, s.cfg.apps)
    case StopLegacySystem(ok, legacyAfter) =>
      var stopped := Log(s.(world := s.world.(legacyRunning := legacyAfter)), LegacyStop(LegacySystem(s.cfg, s.entry), ok), HandoffRemove);
      if ok then stopped else Rollback(stopped, s.cfg.apps)
    case RemoveLegacySystem(ok) =>
      var removed := Log(s, LegacyRemove(LegacySystem(s.cfg, s.entry), ok), StartSystem);
      if ok then removed else Rollback(removed, s.cfg.apps)
    case UpSystem(ok, systemRuns) =>
      var up := Log(s.(world := Runs(s.world, System(s.cfg), systemRuns)), SystemUp(ok), RemoveAbsent);
      if ok then up else Rollback(up, s.cfg.apps)
    case DropAbsent(v2After) =>
      s.(world := s.world.(v2Running := v2After, composeFiles := s.world.composeFiles - Absent(s.cfg, s.world)),
         phase := Reconcile(map a | a in s.cfg.apps :: Todo))
  }

  function DoReconcile(s: State, step: Step): State
    requires Enabled(s, step) && IsReconcile(step)
  {
    match step
    case StopLegacyApp(app, ok, legacyAfter) =>
      var stopped := Log(s.(world := s.world.(legacyRunning := legacyAfter)), LegacyStop({OfApp(app)}, ok), s.phase);
      if ok then SetPc(stopped, app, LegacyStopped)
      else SetPc(Log(stopped, ReportedFailed(app), s.phase), app, Finished(Bad))
    case StopApp(app, ok, runs) =>
      var written := s.(world := s.world.(composeFiles := s.world.composeFiles + {OfInstance(app)}));
      var stopped := Log(written.(world := Runs(written.world, OfInstance(app), runs)), AppStop(app, ok), s.phase);
      if ok then SetPc(stopped, app, Finished(Good))
      else SetPc(Log(stopped, ReportedFailed(app), s.phase), app, Finished(Bad))
    case UpApp(app, result, runs) =>
      var up := Log(s.(world := Runs(s.world, OfInstance(app), runs)), AppUp(app, result.Good?), s.phase);
      (match result
       case Good => SetPc(up, app, Finished(Good))
       case Overtaken => SetPc(up, app, Finished(Overtaken))
       case Bad => SetPc(Log(up, ReportedFailed(app), s.phase), app, OfferLegacyStart))
    case StartLegacyApp(app, legacyAfter) =>
      SetPc(Log(s.(world := s.world.(legacyRunning := legacyAfter)), LegacyStart(app), s.phase), app, Finished(Bad))
    case EndReconcile =>
      if exists a :: a in s.phase.pcs && s.phase.pcs[a] != Finished(Good)
      then Rollback(s, s.cfg.apps - FailedApps(s.phase.pcs))
      else s.(phase := CommitDown)
  }

  function DoCommit(s: State, step: Step): State
    requires Enabled(s, step) && IsCommit(step)
  {
    match step
    case DownLegacy(ok, legacyAfter) =>
      var down := Log(s.(world := s.world.(legacyRunning := legacyAfter)), LegacyDown(ok), CommitMark);
      if ok then down else Rollback(down, s.cfg.apps)
    case WriteMarker => Log(s.(world := s.world.(marker := true)), MarkerWritten, CommitForgetState)
    case ForgetState => s.(world := s.world.(v1State := false), phase := CommitForgetCompose)
    case ForgetCompose =>
      s.(world := s.world.(legacyCompose := false), phase := Publish(s.cfg.apps - s.cfg.stopped, Committed))
  }

  function DoRollback(s: State, step: Step): State
    requires Enabled(s, step) && IsRollback(step)
  {
    match step
    case RollbackStopApp(app, ok, runs) =>
      Log(s.(world := Runs(s.world, OfInstance(app), runs)), RollbackStop(app, ok),
          RollbackApps(s.phase.left - {app}, s.phase.clean && ok, s.phase.report))
    case EndRollbackApps => s.(phase := RollbackSystem(s.phase.clean, s.phase.report))
    case RollbackDropSystem(ok, runs) =>
      Log(s.(world := Runs(s.world, System(s.cfg), runs)), RollbackRemoveSystem(ok),
          RollbackUp(s.phase.clean && ok, s.phase.report))
    case RollbackUpLegacy(ok, legacyAfter) =>
      var clean := ok && s.phase.clean;
      Log(s.(world := s.world.(legacyRunning := legacyAfter)), LegacyUp(ok),
          Publish(if clean then LegacyReports(s.cfg, s.entry, s.phase.report) else {}, RolledBack(clean)))
  }

  function Do(s: State, step: Step): State
    requires Enabled(s, step)
  {
    match step
    case ApplyV1(legacy, running) =>
      s.(world := s.world.(v1State := true, legacyCompose := true, legacy := legacy, legacyRunning := running))
    case SaveV2(desired) =>
      var saved := s.(world := s.world.(v2State := true, desired := desired));
      if s.world.v2State then saved else saved.(switched := saved.world)
    case Begin => s.(cfg := s.world.desired, phase := PrepareSystem, trace := [], entry := s.world)
    case Crash => s.(phase := Idle)
    case Reboot(legacyAfter, v2After) =>
      s.(phase := Idle, world := s.world.(legacyRunning := legacyAfter, v2Running := v2After))
    case PublishRunning(app) => Log(s, ReportedRunning(app), Publish(s.phase.pending - {app}, s.phase.result))
    case EndPublish => s.(phase := Returned(s.phase.result))
    case SystemPrepare(_) => DoPrepare(s, step)
    case AppPrepare(_, _, _) => DoPrepare(s, step)
    case EndPrepare => DoPrepare(s, step)
    case CleanSystem(_, _) => DoHandoff(s, step)
    case StopLegacySystem(_, _) => DoHandoff(s, step)
    case RemoveLegacySystem(_) => DoHandoff(s, step)
    case UpSystem(_, _) => DoHandoff(s, step)
    case DropAbsent(_) => DoHandoff(s, step)
    case StopLegacyApp(_, _, _) => DoReconcile(s, step)
    case StopApp(_, _, _) => DoReconcile(s, step)
    case UpApp(_, _, _) => DoReconcile(s, step)
    case StartLegacyApp(_, _) => DoReconcile(s, step)
    case EndReconcile => DoReconcile(s, step)
    case DownLegacy(_, _) => DoCommit(s, step)
    case WriteMarker => DoCommit(s, step)
    case ForgetState => DoCommit(s, step)
    case ForgetCompose => DoCommit(s, step)
    case RollbackStopApp(_, _, _) => DoRollback(s, step)
    case EndRollbackApps => DoRollback(s, step)
    case RollbackDropSystem(_, _) => DoRollback(s, step)
    case RollbackUpLegacy(_, _) => DoRollback(s, step)
  }
}
