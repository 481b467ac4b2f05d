/**
  What has been stopped when a v2 project starts: all of the legacy platform before the
  v2 system project, and an app's own legacy service before the project of that app.
 */
module MigrationSystem {
  import opened Migration
  import opened MigrationTrace
  import opened MigrationWorld
  import opened MigrationRuns

  /** Stopped, and then removed, successfully. */
  ghost predicate StoppedThenRemoved(trace: seq<Event>, services: set<Service>) {
    exists i, j :: 0 <= i < j < |trace| && trace[i] == LegacyStop(services, true) && trace[j] == LegacyRemove(services, true)
  }

  /** Of the legacy project, at most these services have been stopped, and nothing started. */
  ghost predicate OnlyStopped(entry: World, w: World, services: set<Service>) {
    entry.legacyRunning - services <= w.legacyRunning <= entry.legacyRunning
  }

  ghost predicate AppsStopped(w: World, pcs: map<AppId, AppPc>) {
    forall a :: a in pcs && (pcs[a] == LegacyStopped || pcs[a] == Finished(Good)) ==> OfApp(a) !in w.legacyRunning
  }

  ghost predicate StoppedInv(cfg: Config, entry: World, w: World, trace: seq<Event>, phase: Phase) {
    var platform := LegacySystem(cfg, entry);
    match phase
    case PrepareSystem => w.legacyRunning == entry.legacyRunning
    case PrepareApps(_) => w.legacyRunning == entry.legacyRunning
    case HandoffClean => w.legacyRunning == entry.legacyRunning
    case HandoffStop => w.legacyRunning == entry.legacyRunning
    case HandoffRemove => LegacyStop(platform, true) in trace && platform !! w.legacyRunning && OnlyStopped(entry, w, platform)
    case StartSystem => StoppedThenRemoved(trace, platform) && platform !! w.legacyRunning && OnlyStopped(entry, w, platform)
    case Reconcile(pcs) => AppsStopped(w, pcs)
    case _ => true
  }

  ghost predicate Stopped(s: State) {
    StoppedInv(s.cfg, s.entry, s.world, s.trace, s.phase)
  }

  lemma StoppedByHandoff(s: State, step: Step)
    requires Stopped(s) && Enabled(s, step) && IsHandoff(step)
    ensures Stopped(Do(s, step))
  {
    var platform := LegacySystem(s.cfg, s.entry);
    if step.RemoveLegacySystem? && step.ok {
      RemovedAfter(s.trace, platform);
    } else if step.StopLegacySystem? && step.ok {
      assert (s.trace + [LegacyStop(platform, true)])[|s.trace|] == LegacyStop(platform, true);
    }
  }

  lemma RemovedAfter(trace: seq<Event>, services: set<Service>)
    requires LegacyStop(services, true) in trace
    ensures StoppedThenRemoved(trace + [LegacyRemove(services, true)], services)
  {
    var longer := trace + [LegacyRemove(services, true)];
    var i :| 0 <= i < |trace| && trace[i] == LegacyStop(services, true);
    assert longer[i] == trace[i] && longer[|trace|] == LegacyRemove(services, true);
  }

  lemma StoppedByReconcile(s: State, step: Step)
    requires Stopped(s) && Enabled(s, step) && IsReconcile(step)
    ensures Stopped(Do(s, step))
  {
  }

  lemma StoppedByOthers(s: State, step: Step)
    requires Stopped(s) && Enabled(s, step) && !IsReconcile(step) && !IsHandoff(step)
    ensures Stopped(Do(s, step))
  {
  }

  lemma {:induction false} RunStopped(states: seq<State>, steps: seq<Step>, k: nat)
    requires Run(states, steps) && k < |states|
    ensures Stopped(states[k])
  {
    if k > 0 {
      RunStopped(states, steps, k - 1);
      assert StepAt(states, steps, k - 1);
      if IsReconcile(steps[k - 1]) {
        StoppedByReconcile(states[k - 1], steps[k - 1]);
      } else if IsHandoff(steps[k - 1]) {
        StoppedByHandoff(states[k - 1], steps[k - 1]);
      } else {
        StoppedByOthers(states[k - 1], steps[k - 1]);
      }
    }
  }

  /**
    When the v2 system project is started, no platform service of the legacy project
    runs: of its services, none but those of listed instances. All others were stopped
    and then removed, successfully and together; the services of instances were let be.
   */
  lemma SystemStartsAlone(states: seq<State>, steps: seq<Step>, k: nat)
    requires Run(states, steps) && k < |steps| && steps[k].UpSystem?
    ensures var s := states[k];
            var platform := set v | v in s.entry.legacy && s.entry.legacyCompose && !(v.OfApp? && v.app in s.cfg.instances);
            && platform !! s.world.legacyRunning
            && (platform != {} ==>
                 exists i, j :: 0 <= i < j < |s.trace|
                                && s.trace[i] == LegacyStop(platform, true) && s.trace[j] == LegacyRemove(platform, true))
            && (forall v :: v in s.entry.legacyRunning && v !in platform ==> v in s.world.legacyRunning)
  {
    RunStopped(states, steps, k);
    assert StepAt(states, steps, k);
    var s := states[k];
    var platform := set v | v in s.entry.legacy && s.entry.legacyCompose && !(v.OfApp? && v.app in s.cfg.instances);
    assert platform == LegacySystem(s.cfg, s.entry);
    if s.phase.StartSystem? {
      assert StoppedThenRemoved(s.trace, platform);
    }
  }

  /** And when the project of an app is started, or stopped for good, that app's legacy service does not run. */
  lemma AppStartsAlone(states: seq<State>, steps: seq<Step>, k: nat)
    requires Run(states, steps) && k < |steps| && (steps[k].UpApp? || steps[k].StopApp?)
    ensures OfApp(steps[k].app) !in states[k].world.legacyRunning
    ensures LegacyStop({OfApp(steps[k].app)}, true) in states[k].trace
  {
    RunStopped(states, steps, k);
    RunInv(states, steps, k);
    assert StepAt(states, steps, k);
    assert AppInv(states[k].cfg, states[k].trace, steps[k].app, states[k].phase.pcs[steps[k].app]);
  }

  // ---- What a stop touches ----------------------------------------------------------------------

  /** A legacy stop names one app of the attempt or the whole platform; a removal names the platform. */
  ghost predicate NamesWhole(cfg: Config, entry: World, e: Event) {
    var platform := LegacySystem(cfg, entry);
    && (e.LegacyStop? ==> e.services == platform || exists a :: a in cfg.apps && e.services == {OfApp(a)})
    && (e.LegacyRemove? ==> e.services == platform)
  }

  ghost predicate TraceNames(s: State) {
    (s.phase.Reconcile? ==> s.phase.pcs.Keys == s.cfg.apps) && forall e :: e in s.trace ==> NamesWhole(s.cfg, s.entry, e)
  }

  lemma {:induction false} RunNames(states: seq<State>, steps: seq<Step>, k: nat)
    requires Run(states, steps) && k < |states|
    ensures TraceNames(states[k])
  {
    if k > 0 {
      RunNames(states, steps, k - 1);
      assert StepAt(states, steps, k - 1);
      NamesStay(states[k - 1], steps[k - 1]);
    }
  }

  lemma NamesStay(s: State, step: Step)
    requires TraceNames(s) && Enabled(s, step)
    ensures TraceNames(Do(s, step))
  {
    if IsReconcile(step) {
      NamesByReconcile(s, step);
    } else {
      NamesByOthers(s, step);
    }
  }

  lemma NamesByReconcile(s: State, step: Step)
    requires TraceNames(s) && Enabled(s, step) && IsReconcile(step)
    ensures TraceNames(Do(s, step))
  {
  }

  lemma NamesByOthers(s: State, step: Step)
    requires TraceNames(s) && Enabled(s, step) && !IsReconcile(step)
    ensures TraceNames(Do(s, step))
  {
  }

  /** No command on the platform touches a service of a listed instance; each other stop is of one app alone. */
  lemma CommandsNameWhole(states: seq<State>, steps: seq<Step>, k: nat, i: nat)
    requires Run(states, steps) && k < |states| && i < |states[k].trace|
    requires states[k].trace[i].LegacyStop? || states[k].trace[i].LegacyRemove?
    ensures var services, cfg := states[k].trace[i].services, states[k].cfg;
            || (exists a :: a in cfg.apps && states[k].trace[i].LegacyStop? && services == {OfApp(a)})
            || (services == (set v | v in states[k].entry.legacy && states[k].entry.legacyCompose && !(v.OfApp? && v.app in cfg.instances))
                && forall a :: a in cfg.instances ==> OfApp(a) !in services)
  {
    RunNames(states, steps, k);
    assert NamesWhole(states[k].cfg, states[k].entry, states[k].trace[i]);
  }

  // ---- Projects that are no longer desired --------------------------------------------------------

  /** The project of a desired app, or the system project by its usual name. */
  predicate Wanted(cfg: Config, p: Project) {
    (p.OfInstance? && p.app in cfg.apps) || p == SystemProject(REEFY_SYSTEM)
  }

  ghost predicate FilesWanted(cfg: Config, w: World) {
    forall p :: p in w.composeFiles ==> Wanted(cfg, p)
  }

  ghost predicate CleanedInv(s: State) {
    match s.phase
    case Reconcile(pcs) => pcs.Keys == s.cfg.apps && FilesWanted(s.cfg, s.world)
    case CommitDown => FilesWanted(s.cfg, s.world)
    case CommitMark => FilesWanted(s.cfg, s.world)
    case CommitForgetState => FilesWanted(s.cfg, s.world)
    case CommitForgetCompose => FilesWanted(s.cfg, s.world)
    case Publish(_, result) => result.Committed? ==> FilesWanted(s.cfg, s.world)
    case Returned(result) => result.Committed? ==> FilesWanted(s.cfg, s.world)
    case _ => true
  }

  /** Dropping absent projects deletes the Compose files of exactly those that are not wanted, and stops no wanted one. */
  lemma DropTakesTheUnwanted(s: State, step: Step)
    requires Enabled(s, step) && step.DropAbsent?
    ensures var after := Do(s, step).world;
            && (forall p :: p in after.composeFiles <==>
                  p in s.world.composeFiles && ((p.OfInstance? && p.app in s.cfg.apps) || p == SystemProject(0)))
            && (forall p :: p in s.world.v2Running && (p in s.world.composeFiles ==> Wanted(s.cfg, p)) ==> p in after.v2Running)
            && (forall p :: Wanted(s.cfg, p) <==> (p.OfInstance? && p.app in s.cfg.apps) || p == SystemProject(0))
            && after.v2Running <= s.world.v2Running && after.legacyRunning == s.world.legacyRunning
  {
    forall p
      ensures p in s.world.composeFiles && !Wanted(s.cfg, p) <==> p in Absent(s.cfg, s.world)
    {
      assert p.OfInstance? && p.app in s.cfg.apps <==> p in Desired(s.cfg);
    }
  }

  lemma CleanedKept(s: State, step: Step)
    requires CleanedInv(s) && Enabled(s, step)
    ensures CleanedInv(Do(s, step))
  {
    if step.DropAbsent? {
      DropTakesTheUnwanted(s, step);
    } else if IsReconcile(step) {
      CleanedByReconcile(s, step);
    } else {
      CleanedByOthers(s, step);
    }
  }

  lemma CleanedByReconcile(s: State, step: Step)
    requires CleanedInv(s) && Enabled(s, step) && IsReconcile(step)
    ensures CleanedInv(Do(s, step))
  {
  }

  lemma CleanedByOthers(s: State, step: Step)
    requires CleanedInv(s) && Enabled(s, step) && !IsReconcile(step) && !step.DropAbsent?
    ensures CleanedInv(Do(s, step))
  {
  }

  /** A committed attempt leaves Compose files of wanted projects only. */
  lemma {:induction false} CommittedFilesWanted(states: seq<State>, steps: seq<Step>, k: nat)
    requires Run(states, steps) && k < |states|
    ensures CleanedInv(states[k])
    ensures states[k].phase == Returned(Committed) ==>
              forall p :: p in states[k].world.composeFiles ==> (p.OfInstance? && p.app in states[k].cfg.apps) || p == SystemProject(0)
  {
    if k > 0 {
      CommittedFilesWanted(states, steps, k - 1);
      assert StepAt(states, steps, k - 1);
      CleanedKept(states[k - 1], steps[k - 1]);
    }
    assert states[k].phase == Returned(Committed) ==> FilesWanted(states[k].cfg, states[k].world);
  }

  // ---- Apps that did not come up -------------------------------------------------------------------

  ghost predicate Offered(trace: seq<Event>, a: AppId) {
    AppUp(a, false) in trace && ReportedFailed(a) in trace ==> LegacyStart(a) in trace
  }

  ghost predicate AllOffered(trace: seq<Event>) {
    forall a: AppId :: Offered(trace, a)
  }

  ghost predicate NoneUp(trace: seq<Event>) {
    forall a: AppId :: AppUp(a, false) !in trace
  }

  /** Where an app stands during the handoff of the apps: not started yet, about to be offered back, or settled. */
  ghost predicate OfferAt(trace: seq<Event>, pcs: map<AppId, AppPc>, a: AppId) {
    if a in pcs && pcs[a] == OfferLegacyStart then true
    else if a in pcs && !pcs[a].Finished? then AppUp(a, false) !in trace
    else Offered(trace, a)
  }

  ghost predicate OfferInv(s: State) {
    match s.phase
    case Idle => true
    case PrepareSystem => NoneUp(s.trace)
    case PrepareApps(_) => NoneUp(s.trace)
    case HandoffClean => NoneUp(s.trace)
    case HandoffStop => NoneUp(s.trace)
    case HandoffRemove => NoneUp(s.trace)
    case StartSystem => NoneUp(s.trace)
    case RemoveAbsent => NoneUp(s.trace)
    case Reconcile(pcs) => forall a: AppId :: OfferAt(s.trace, pcs, a)
    case _ => AllOffered(s.trace)
  }

  lemma OfferKept(s: State, step: Step)
    requires OfferInv(s) && TraceInv(s) && Enabled(s, step)
    ensures OfferInv(Do(s, step))
  {
    if IsReconcile(step) {
      OfferByReconcile(s, step);
    } else if IsPrepare(step) || IsHandoff(step) {
      OfferByHandoff(s, step);
    } else {
      OfferByOthers(s, step);
    }
  }

  lemma OfferByReconcile(s: State, step: Step)
    requires OfferInv(s) && TraceInv(s) && Enabled(s, step) && IsReconcile(step)
    ensures OfferInv(Do(s, step))
  {
    if step.EndReconcile? {
      forall a: AppId
        ensures Offered(s.trace, a)
      {
        assert OfferAt(s.trace, s.phase.pcs, a);
      }
    } else {
      assert AppInv(s.cfg, s.trace, step.app, s.phase.pcs[step.app]);
      OfferByApp(s, step);
    }
  }

  lemma OfferByApp(s: State, step: Step)
    requires OfferInv(s) && Enabled(s, step) && IsReconcile(step) && !step.EndReconcile?
    requires s.phase.pcs[step.app] == LegacyStopped ==> ReportedFailed(step.app) !in s.trace
    ensures OfferInv(Do(s, step))
  {
    var t := Do(s, step);
    forall a: AppId
      ensures OfferAt(t.trace, t.phase.pcs, a)
    {
      assert OfferAt(s.trace, s.phase.pcs, a);
    }
  }

  lemma OfferByHandoff(s: State, step: Step)
    requires OfferInv(s) && Enabled(s, step) && (IsPrepare(step) || IsHandoff(step))
    ensures OfferInv(Do(s, step))
  {
    var t := Do(s, step);
    forall a: AppId
      ensures AppUp(a, false) !in t.trace
    {
      assert AppUp(a, false) !in s.trace;
    }
    assert AllOffered(t.trace);
  }

  lemma OfferByOthers(s: State, step: Step)
    requires OfferInv(s) && Enabled(s, step) && !IsReconcile(step) && !IsPrepare(step) && !IsHandoff(step)
    ensures OfferInv(Do(s, step))
  {
    var t := Do(s, step);
    if !t.phase.Idle? && !step.Begin? && !step.SaveV2? {
      forall a: AppId
        ensures Offered(t.trace, a)
      {
        assert Offered(s.trace, a);
      }
    }
  }

  /**
    When an attempt returns, every app whose v2 project was started without success and
    which was reported failed for it has had its legacy service offered a start.
   */
  lemma {:induction false} FailedAppsAreOfferedBack(states: seq<State>, steps: seq<Step>, k: nat)
    requires Run(states, steps) && k < |states|
    ensures OfferInv(states[k])
    ensures states[k].phase.Returned? ==>
              forall a :: AppUp(a, false) in states[k].trace && ReportedFailed(a) in states[k].trace ==> LegacyStart(a) in states[k].trace
  {
    if k > 0 {
      FailedAppsAreOfferedBack(states, steps, k - 1);
      RunInv(states, steps, k - 1);
      assert StepAt(states, steps, k - 1);
      OfferKept(states[k - 1], steps[k - 1]);
    }
    if states[k].phase.Returned? {
      forall a | AppUp(a, false) in states[k].trace && ReportedFailed(a) in states[k].trace
        ensures LegacyStart(a) in states[k].trace
      {
        assert Offered(states[k].trace, a);
      }
    }
  }
}
