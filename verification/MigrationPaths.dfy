/**
  What an attempt can come to: which worlds a clean rollback does not clean up, and
  which system project a commit does not leave running. Each exact condition is shown
  with the attempt that fails without it.
 */
module MigrationPaths {
  import opened Migration
  import opened MigrationTrace
  import opened MigrationWorld
  import opened MigrationRuns

  predicate OfAttempt(step: Step) {
    !step.ApplyV1? && !step.SaveV2? && !step.Begin? && !step.Crash? && !step.Reboot?
  }

  /** The attempt under way in `s` can get to `t`. */
  ghost predicate Leads(s: State, t: State) {
    exists states, steps :: LeadsBy(s, t, states, steps)
  }

  ghost predicate LeadsBy(s: State, t: State, states: seq<State>, steps: seq<Step>) {
    && Path(states, steps) && states[0] == s && states[|steps|] == t
    && forall i :: 0 <= i < |steps| ==> OfAttempt(steps[i])
  }

  ghost predicate Reachable(s: State) {
    exists states, steps :: Run(states, steps) && states[|steps|] == s
  }

  lemma LeadsToSelf(s: State)
    ensures Leads(s, s)
  {
    var states, steps := [s], [];
    assert LeadsBy(s, s, states, steps);
  }

  lemma PathOn(states: seq<State>, steps: seq<Step>, step: Step, t: State)
    requires Path(states, steps) && Enabled(states[|steps|], step) && t == Do(states[|steps|], step)
    ensures Path(states + [t], steps + [step])
  {
    forall i | 0 <= i < |steps| + 1
      ensures StepAt(states + [t], steps + [step], i)
    {
      assert i < |steps| ==> StepAt(states, steps, i);
    }
  }

  lemma LeadsOn(s: State, t: State, step: Step, u: State)
    requires Leads(s, t) && Enabled(t, step) && OfAttempt(step) && u == Do(t, step)
    ensures Leads(s, u)
  {
    var states, steps :| LeadsBy(s, t, states, steps);
    PathOn(states, steps, step, u);
    assert LeadsBy(s, u, states + [u], steps + [step]);
  }

  lemma ReachOn(s: State, step: Step, t: State)
    requires Reachable(s) && Enabled(s, step) && t == Do(s, step)
    ensures Reachable(t)
  {
    var states, steps :| Run(states, steps) && states[|steps|] == s;
    PathOn(states, steps, step, t);
    assert Run(states + [t], steps + [step]) && (states + [t])[|steps + [step]|] == t;
  }

  lemma ReachableInv(s: State)
    requires Reachable(s)
    ensures Inv(s)
  {
    var states, steps :| Run(states, steps) && states[|steps|] == s;
    RunInv(states, steps, |steps|);
  }

  /** Along an attempt, what it works on stays, and what is reachable stays so. */
  lemma {:induction false} AlongAttempt(s: State, states: seq<State>, steps: seq<Step>, k: nat)
    requires Path(states, steps) && states[0] == s && k <= |steps| && forall i :: 0 <= i < |steps| ==> OfAttempt(steps[i])
    ensures states[k].cfg == s.cfg && states[k].entry == s.entry
    ensures Reachable(s) ==> Reachable(states[k])
  {
    if k > 0 {
      AlongAttempt(s, states, steps, k - 1);
      assert StepAt(states, steps, k - 1);
      AttemptStays(states[k - 1], steps[k - 1]);
      if Reachable(s) {
        ReachOn(states[k - 1], steps[k - 1], states[k]);
      }
    }
  }

  lemma AttemptStays(s: State, step: Step)
    requires Enabled(s, step) && OfAttempt(step)
    ensures Do(s, step).cfg == s.cfg && Do(s, step).entry == s.entry
  {
  }

  lemma LeadsKeeps(s: State, t: State)
    requires Leads(s, t)
    ensures t.cfg == s.cfg && t.entry == s.entry && (Reachable(s) ==> Reachable(t))
  {
    var states, steps :| LeadsBy(s, t, states, steps);
    AlongAttempt(s, states, steps, |steps|);
  }

  predicate MayBegin(s: State) {
    Enabled(s, Begin)
  }

  function Begun(s: State): State
    requires MayBegin(s)
  {
    Do(s, Begin)
  }

  // ---- To the handoff and beyond ----------------------------------------------------------

  /** The Compose files that preparing these apps writes. */
  function Files(cfg: Config, apps: set<AppId>): set<Project> {
    set a | a in apps && a !in cfg.stopped :: OfInstance(a)
  }

  lemma {:induction false} AppsCanPrepare(o: State, s: State) returns (t: State)
    requires Leads(o, s) && s.phase.PrepareApps? && s.phase.results.Keys <= s.cfg.apps
    requires forall a :: a in s.phase.results ==> s.phase.results[a] == Good
    ensures Leads(o, t) && t.phase.PrepareApps? && t.phase.results.Keys == s.cfg.apps && t.cfg == s.cfg && t.entry == s.entry
    ensures forall a :: a in t.phase.results ==> t.phase.results[a] == Good
    ensures t.world == s.world.(composeFiles := s.world.composeFiles + Files(s.cfg, s.cfg.apps - s.phase.results.Keys))
    decreases s.cfg.apps - s.phase.results.Keys
  {
    if a :| a in s.cfg.apps && a !in s.phase.results {
      var step := AppPrepare(a, Good, a !in s.cfg.stopped);
      var next := Do(s, step);
      LeadsOn(o, s, step, next);
      assert s.cfg.apps - next.phase.results.Keys == s.cfg.apps - s.phase.results.Keys - {a};
      t := AppsCanPrepare(o, next);
      assert next.world.composeFiles + Files(s.cfg, s.cfg.apps - next.phase.results.Keys)
          == s.world.composeFiles + Files(s.cfg, s.cfg.apps - s.phase.results.Keys);
    } else {
      t := s;
      assert s.world.composeFiles + Files(s.cfg, s.cfg.apps - s.phase.results.Keys) == s.world.composeFiles;
    }
  }

  /** Every attempt can get to its handoff, with nothing stopped yet. */
  lemma HandoffCanBegin(s: State) returns (t: State)
    requires MayBegin(s)
    ensures Leads(Begun(s), t) && t.phase == HandoffClean && t.cfg == s.world.desired && t.entry == s.world
    ensures t.world == s.world.(composeFiles := s.world.composeFiles + {System(t.cfg)} + Files(t.cfg, t.cfg.apps))
  {
    var o := Begun(s);
    LeadsToSelf(o);
    var prepared := Do(o, SystemPrepare(true));
    LeadsOn(o, o, SystemPrepare(true), prepared);
    var all := AppsCanPrepare(o, prepared);
    t := Do(all, EndPrepare);
    LeadsOn(o, all, EndPrepare, t);
    assert t.cfg.apps - {} == t.cfg.apps;
  }

  lemma LegacySystemCanStop(o: State, s: State) returns (t: State)
    requires Leads(o, s) && s.phase == HandoffStop
    ensures Leads(o, t) && Enabled(t, UpSystem(true, true)) && t.cfg == s.cfg && t.entry == s.entry
    ensures t.world == s.world.(legacyRunning := t.world.legacyRunning)
  {
    var services := LegacySystem(s.cfg, s.entry);
    if services == {} {
      t := s;
    } else {
      var stop := StopLegacySystem(true, s.world.legacyRunning - services);
      var stopped := Do(s, stop);
      LeadsOn(o, s, stop, stopped);
      t := Do(stopped, RemoveLegacySystem(true));
      LeadsOn(o, stopped, RemoveLegacySystem(true), t);
    }
  }

  /** And it can start its system project. */
  lemma SystemCanStart(s: State) returns (t: State)
    requires MayBegin(s)
    ensures Leads(Begun(s), t) && t.phase == RemoveAbsent && t.cfg == s.world.desired && t.entry == s.world
    ensures t.world == s.world.(composeFiles := s.world.composeFiles + {System(t.cfg)} + Files(t.cfg, t.cfg.apps),
                                v2Running := s.world.v2Running + {System(t.cfg)}, legacyRunning := t.world.legacyRunning)
  {
    var handoff := HandoffCanBegin(s);
    var cleaned := Do(handoff, CleanSystem(true, false));
    LeadsOn(Begun(s), handoff, CleanSystem(true, false), cleaned);
    var free := LegacySystemCanStop(Begun(s), cleaned);
    t := Do(free, UpSystem(true, true));
    LeadsOn(Begun(s), free, UpSystem(true, true), t);
    assert t.world.v2Running == s.world.v2Running + {System(t.cfg)};
  }

  // ---- To a clean rollback ------------------------------------------------------------------

  function WithFiles(w: World, apps: set<AppId>): set<Project> {
    set a | a in apps && OfInstance(a) in w.composeFiles :: OfInstance(a)
  }

  lemma {:induction false} AppsCanStop(o: State, s: State) returns (t: State)
    requires Leads(o, s) && s.phase.RollbackApps? && s.phase.clean
    ensures Leads(o, t) && t.phase == RollbackSystem(true, s.phase.report) && t.cfg == s.cfg && t.entry == s.entry
    ensures t.world == s.world.(v2Running := s.world.v2Running - WithFiles(s.world, s.phase.left))
    decreases s.phase.left
  {
    if a :| a in s.phase.left && OfInstance(a) in s.world.composeFiles {
      var step := RollbackStopApp(a, true, false);
      var next := Do(s, step);
      LeadsOn(o, s, step, next);
      t := AppsCanStop(o, next);
      assert WithFiles(s.world, s.phase.left) == WithFiles(next.world, next.phase.left) + {OfInstance(a)};
      assert t.world.v2Running == s.world.v2Running - WithFiles(s.world, s.phase.left);
    } else {
      t := Do(s, EndRollbackApps);
      LeadsOn(o, s, EndRollbackApps, t);
      assert s.world.v2Running - WithFiles(s.world, s.phase.left) == s.world.v2Running;
    }
  }

  lemma {:induction false} CanPublish(o: State, s: State) returns (t: State)
    requires Leads(o, s) && s.phase.Publish?
    ensures Leads(o, t) && t.phase == Returned(s.phase.result) && t.cfg == s.cfg && t.entry == s.entry && t.world == s.world
    decreases if s.phase.Publish? then s.phase.pending else {}
  {
    if a :| a in s.phase.pending {
      var next := Do(s, PublishRunning(a));
      LeadsOn(o, s, PublishRunning(a), next);
      t := CanPublish(o, next);
    } else {
      t := Do(s, EndPublish);
      LeadsOn(o, s, EndPublish, t);
    }
  }

  /** What a rollback of this desired state finds and stops. */
  function Found(cfg: Config, w: World): set<Project> {
    WithFiles(w, cfg.apps) + {System(cfg)} * w.composeFiles
  }

  lemma CanDropSystem(o: State, s: State) returns (t: State)
    requires Leads(o, s) && s.phase.RollbackSystem? && s.phase.clean && s.world.legacyCompose
    ensures Leads(o, t) && t.phase.Publish? && t.phase.result == RolledBack(true) && t.cfg == s.cfg && t.entry == s.entry
    ensures t.world.v2Running == s.world.v2Running - {System(s.cfg)} * s.world.composeFiles
  {
    var dropped := s;
    if System(s.cfg) in s.world.composeFiles {
      dropped := Do(s, RollbackDropSystem(true, false));
      LeadsOn(o, s, RollbackDropSystem(true, false), dropped);
      assert {System(s.cfg)} * s.world.composeFiles == {System(s.cfg)};
    } else {
      assert {System(s.cfg)} * s.world.composeFiles == {};
    }
    var up := RollbackUpLegacy(true, dropped.world.legacyRunning + LegacyServices(dropped.world));
    t := Do(dropped, up);
    LeadsOn(o, dropped, up, t);
  }

  /** Every rollback can go well. */
  lemma RollbackCanSucceed(o: State, s: State) returns (t: State)
    requires Leads(o, s) && s.phase.RollbackApps? && s.phase.clean && s.phase.left == s.cfg.apps && s.world.legacyCompose
    ensures Leads(o, t) && t.phase == Returned(RolledBack(true)) && t.world.v2Running == s.world.v2Running - Found(s.cfg, s.world)
  {
    var stopped := AppsCanStop(o, s);
    var up := CanDropSystem(o, stopped);
    t := CanPublish(o, up);
    assert t.world.v2Running == s.world.v2Running - Found(s.cfg, s.world);
  }

  // ---- What a clean rollback leaves running ---------------------------------------------------

  /** A project that the rollback does not find stays up. */
  lemma StrangerStays(s: State) returns (t: State)
    requires MayBegin(s) && s.world.legacyCompose && !Recoverable(s.world.desired, s.world)
    ensures Leads(Begun(s), t) && t.phase == Returned(RolledBack(true)) && t.world.v2Running != {}
  {
    var cfg := s.world.desired;
    var p :| p in s.world.v2Running && p != System(cfg)
             && !(p.OfInstance? && p.app in cfg.apps && (p in s.world.composeFiles || p.app !in cfg.stopped));
    var handoff := HandoffCanBegin(s);
    var step := CleanSystem(false, System(cfg) in handoff.world.v2Running);
    var failed := Do(handoff, step);
    LeadsOn(Begun(s), handoff, step, failed);
    t := RollbackCanSucceed(Begun(s), failed);
    assert p in failed.world.v2Running && p !in Found(cfg, failed.world);
  }

  function TodoApps(s: State): set<AppId> {
    if s.phase.Reconcile? then set a | a in s.phase.pcs && s.phase.pcs[a] == Todo else {}
  }

  lemma {:induction false} AppsCanFail(o: State, s: State) returns (t: State)
    requires Leads(o, s) && s.phase.Reconcile? && forall a :: a in s.phase.pcs ==> s.phase.pcs[a] == Todo || s.phase.pcs[a] == Finished(Bad)
    ensures Leads(o, t) && t.phase.Reconcile? && t.phase.pcs.Keys == s.phase.pcs.Keys && t.cfg == s.cfg && t.entry == s.entry && t.world == s.world
    ensures forall a :: a in t.phase.pcs ==> t.phase.pcs[a] == Finished(Bad)
    decreases TodoApps(s)
  {
    if a :| a in s.phase.pcs && s.phase.pcs[a] == Todo {
      var step := StopLegacyApp(a, false, s.world.legacyRunning);
      var next := Do(s, step);
      LeadsOn(o, s, step, next);
      assert TodoApps(next) == TodoApps(s) - {a};
      t := AppsCanFail(o, next);
    } else {
      t := s;
    }
  }

  /** An attempt can fail after the absent projects were removed. */
  lemma CanFailLate(o: State, s: State) returns (t: State)
    requires Leads(o, s) && s.phase == Reconcile(map a | a in s.cfg.apps :: Todo) && s.world.legacyCompose
    ensures Leads(o, t) && t.phase.RollbackApps? && t.phase.clean && t.phase.left == s.cfg.apps
    ensures t.cfg == s.cfg && t.world == s.world
  {
    var ended := AppsCanFail(o, s);
    var next := Do(ended, EndReconcile);
    LeadsOn(o, ended, EndReconcile, next);
    if a :| a in s.cfg.apps {
      assert ended.phase.pcs[a] != Finished(Good);
      t := next;
    } else {
      var down := DownLegacy(false, next.world.legacyRunning);
      t := Do(next, down);
      LeadsOn(o, next, down, t);
    }
  }

  /** Under another name, removing the absent projects can take the system project's files and leave it running. */
  lemma RenamedSystemStays(s: State) returns (t: State)
    requires MayBegin(s) && s.world.legacyCompose && s.world.desired.systemName != REEFY_SYSTEM
    ensures Leads(Begun(s), t) && t.phase == Returned(RolledBack(true)) && t.world.v2Running != {}
  {
    var started := SystemCanStart(s);
    var step := DropAbsent(started.world.v2Running);
    var dropped := Do(started, step);
    LeadsOn(Begun(s), started, step, dropped);
    var failed := CanFailLate(Begun(s), dropped);
    t := RollbackCanSucceed(Begun(s), failed);
    assert System(dropped.cfg) !in dropped.world.composeFiles;
    assert System(dropped.cfg) in t.world.v2Running;
  }

  /**
    A clean rollback is sure to leave no v2 project running exactly when the attempt
    began with nothing but projects it can find again, and its system project carries
    the name that removal spares; or when there was no legacy Compose file, without which
    no rollback is clean.
  */
  lemma CleanRollbackLeavesNoneIff(s: State)
    requires Reachable(s) && MayBegin(s)
    ensures !s.world.legacyCompose || CleanEntry(s.world.desired, s.world) <==>
            forall t :: Leads(Begun(s), t) && t.phase == Returned(RolledBack(true)) ==> t.world.v2Running == {}
  {
    if !s.world.legacyCompose || CleanEntry(s.world.desired, s.world) {
      forall t | Leads(Begun(s), t) && t.phase == Returned(RolledBack(true))
        ensures t.world.v2Running == {}
      {
        ReachOn(s, Begin, Begun(s));
        LeadsKeeps(Begun(s), t);
        ReachableInv(t);
      }
    } else if !Recoverable(s.world.desired, s.world) {
      var t := StrangerStays(s);
    } else {
      var t := RenamedSystemStays(s);
    }
  }

  // ---- What a commit leaves running -------------------------------------------------------------

  lemma {:induction false} AppsCanReconcile(o: State, s: State) returns (t: State)
    requires Leads(o, s) && s.phase.Reconcile? && (s.world.legacyCompose || s.phase.pcs == map[])
    requires forall a :: a in s.phase.pcs ==> s.phase.pcs[a] == Todo || s.phase.pcs[a] == Finished(Good)
    ensures Leads(o, t) && t.phase.Reconcile? && forall a :: a in t.phase.pcs ==> t.phase.pcs[a] == Finished(Good)
    ensures t.cfg == s.cfg && (System(s.cfg) in t.world.v2Running ==> System(s.cfg) in s.world.v2Running)
    decreases TodoApps(s)
  {
    if a :| a in s.phase.pcs && s.phase.pcs[a] == Todo {
      var next := AppCanReconcile(o, s, a);
      assert TodoApps(next) == TodoApps(s) - {a};
      t := AppsCanReconcile(o, next);
    } else {
      t := s;
    }
  }

  lemma AppCanReconcile(o: State, s: State, a: AppId) returns (t: State)
    requires Leads(o, s) && s.phase.Reconcile? && s.world.legacyCompose && a in s.phase.pcs && s.phase.pcs[a] == Todo
    ensures Leads(o, t) && t.phase == Reconcile(s.phase.pcs[a := Finished(Good)])
    ensures t.cfg == s.cfg && t.world.legacyCompose && (System(s.cfg) in t.world.v2Running ==> System(s.cfg) in s.world.v2Running)
  {
    var stop := StopLegacyApp(a, true, s.world.legacyRunning - {OfApp(a)});
    var stopped := Do(s, stop);
    LeadsOn(o, s, stop, stopped);
    var step := if a in s.cfg.stopped then StopApp(a, true, false) else UpApp(a, Good, true);
    t := Do(stopped, step);
    LeadsOn(o, stopped, step, t);
    assert s.phase.pcs[a := LegacyStopped][a := Finished(Good)] == s.phase.pcs[a := Finished(Good)];
  }

  lemma CanMark(o: State, s: State) returns (t: State)
    requires Leads(o, s) && s.phase == CommitDown
    ensures Leads(o, t) && t.phase == CommitForgetState && t.cfg == s.cfg && t.world.v2Running == s.world.v2Running
  {
    var down := s;
    if s.world.legacyCompose {
      down := Do(s, DownLegacy(true, {}));
      LeadsOn(o, s, DownLegacy(true, {}), down);
    }
    t := Do(down, WriteMarker);
    LeadsOn(o, down, WriteMarker, t);
  }

  lemma CanForget(o: State, s: State) returns (t: State)
    requires Leads(o, s) && s.phase == CommitForgetState
    ensures Leads(o, t) && t.phase.Publish? && t.phase.result == Committed && t.cfg == s.cfg && t.world.v2Running == s.world.v2Running
  {
    var forgot := Do(s, ForgetState);
    LeadsOn(o, s, ForgetState, forgot);
    t := Do(forgot, ForgetCompose);
    LeadsOn(o, forgot, ForgetCompose, t);
  }

  lemma CanCommit(o: State, s: State) returns (t: State)
    requires Leads(o, s) && s.phase == CommitDown
    ensures Leads(o, t) && t.phase == Returned(Committed) && t.cfg == s.cfg && t.world.v2Running == s.world.v2Running
  {
    var marked := CanMark(o, s);
    var done := CanForget(o, marked);
    t := CanPublish(o, done);
  }

  /** Under another name the system project can be taken down as absent, and the attempt still commit. */
  lemma CommitsWithoutSystem(s: State) returns (t: State)
    requires MayBegin(s) && (s.world.legacyCompose || s.world.desired.apps == {}) && s.world.desired.systemName != REEFY_SYSTEM
    ensures Leads(Begun(s), t) && t.phase == Returned(Committed) && System(t.cfg) !in t.world.v2Running
  {
    var o := Begun(s);
    var started := SystemCanStart(s);
    var step := DropAbsent(started.world.v2Running - {System(started.cfg)});
    var dropped := Do(started, step);
    LeadsOn(o, started, step, dropped);
    var good := AppsCanReconcile(o, dropped);
    var commits := Do(good, EndReconcile);
    LeadsOn(o, good, EndReconcile, commits);
    t := CanCommit(o, commits);
  }

  /** Without a legacy Compose file no app's legacy stop succeeds, so an attempt with apps is not committed. */
  ghost predicate Uncommitted(s: State) {
    && !s.world.legacyCompose && s.cfg.apps != {}
    && match s.phase
       case Reconcile(pcs) => pcs.Keys == s.cfg.apps && forall a :: a in pcs ==> pcs[a] == Todo || pcs[a] == Finished(Bad)
       case CommitDown => false
       case CommitMark => false
       case CommitForgetState => false
       case CommitForgetCompose => false
       case Publish(_, result) => !result.Committed?
       case Returned(result) => !result.Committed?
       case _ => true
  }

  lemma StaysUncommitted(s: State, step: Step)
    requires Uncommitted(s) && Enabled(s, step) && OfAttempt(step)
    ensures Uncommitted(Do(s, step))
  {
    if s.phase.Reconcile? {
      var a :| a in s.cfg.apps;
      assert s.phase.pcs[a] != Finished(Good);
    }
  }

  lemma NeverCommits(s: State, t: State)
    requires Leads(s, t) && Uncommitted(s)
    ensures Uncommitted(t)
  {
    var states, steps :| LeadsBy(s, t, states, steps);
    UncommittedAlong(states, steps, |steps|);
  }

  lemma {:induction false} UncommittedAlong(states: seq<State>, steps: seq<Step>, k: nat)
    requires Path(states, steps) && Uncommitted(states[0]) && k <= |steps| && forall i :: 0 <= i < |steps| ==> OfAttempt(steps[i])
    ensures Uncommitted(states[k])
  {
    if k > 0 {
      UncommittedAlong(states, steps, k - 1);
      assert StepAt(states, steps, k - 1);
      StaysUncommitted(states[k - 1], steps[k - 1]);
    }
  }

  /**
    A committed attempt is sure to leave its system project running exactly when the
    project is called `reefy-system`; or when it has apps but no legacy Compose file, and
    so never commits.
  */
  lemma SystemSurvivesIffLiteralName(s: State)
    requires Reachable(s) && MayBegin(s)
    ensures s.world.desired.systemName == REEFY_SYSTEM || (!s.world.legacyCompose && s.world.desired.apps != {}) <==>
            forall t :: Leads(Begun(s), t) && t.phase == Returned(Committed) ==> System(t.cfg) in t.world.v2Running
  {
    if s.world.desired.systemName == REEFY_SYSTEM {
      forall t | Leads(Begun(s), t) && t.phase == Returned(Committed)
        ensures System(t.cfg) in t.world.v2Running
      {
        ReachOn(s, Begin, Begun(s));
        LeadsKeeps(Begun(s), t);
        ReachableInv(t);
      }
    } else if !s.world.legacyCompose && s.world.desired.apps != {} {
      forall t | Leads(Begun(s), t)
        ensures t.phase != Returned(Committed)
      {
        NeverCommits(Begun(s), t);
      }
    } else {
      var t := CommitsWithoutSystem(s);
    }
  }

  // ---- A device on which it happens ---------------------------------------------------------------

  function DesiredApps(apps: set<AppId>): Config {
    Config(apps, {}, apps, REEFY_SYSTEM)
  }

  /** Any desired state can be the first v2 state that a device saves, and migrates to. */
  lemma AnyStateMayBegin(desired: Config) returns (s: State)
    ensures Reachable(s) && MayBegin(s) && s.world.legacyCompose && s.world.desired == desired
  {
    var w := World(true, false, false, true, {OfApp(1), OfApp(2)}, desired, {OfApp(1), OfApp(2)}, {}, {});
    var first := State(desired, w, Idle, [], w, w);
    var states, steps: seq<Step> := [first], [];
    assert Run(states, steps) && states[|steps|] == first;
    s := Do(first, SaveV2(desired));
    ReachOn(first, SaveV2(desired), s);
  }

  /**
    An attempt for the apps 1 and 2 crashes once the second one is up; then a desired
    state without that app is saved.
  */
  lemma NewerStateMayMeetStranger() returns (s: State)
    ensures Reachable(s) && MayBegin(s) && s.world.legacyCompose && s.world.desired == DesiredApps({1})
    ensures OfInstance(2) in s.world.v2Running
  {
    var saved := AnyStateMayBegin(DesiredApps({1, 2}));
    ReachOn(saved, Begin, Begun(saved));
    var started := SystemCanStart(saved);
    LeadsKeeps(Begun(saved), started);
    var crashed := CrashAfterSecondApp(started);
    s := Do(crashed, SaveV2(DesiredApps({1})));
    ReachOn(crashed, SaveV2(DesiredApps({1})), s);
  }

  lemma CrashAfterSecondApp(started: State) returns (s: State)
    requires Reachable(started) && started.phase == RemoveAbsent && started.cfg == DesiredApps({1, 2}) && started.world.legacyCompose
    ensures Reachable(s) && s.phase == Idle && OfInstance(2) in s.world.v2Running
    ensures s.world == started.world.(composeFiles := s.world.composeFiles, legacyRunning := s.world.legacyRunning, v2Running := s.world.v2Running)
  {
    var dropped := Do(started, DropAbsent(started.world.v2Running));
    ReachOn(started, DropAbsent(started.world.v2Running), dropped);
    var up := SecondAppComesUp(dropped);
    s := Do(up, Crash);
    ReachOn(up, Crash, s);
  }

  lemma SecondAppComesUp(s: State) returns (t: State)
    requires Reachable(s) && s.phase.Reconcile? && 2 in s.phase.pcs && s.phase.pcs[2] == Todo && 2 !in s.cfg.stopped && s.world.legacyCompose
    ensures Reachable(t) && OfInstance(2) in t.world.v2Running
    ensures t.world == s.world.(legacyRunning := t.world.legacyRunning, v2Running := t.world.v2Running)
  {
    var stop := StopLegacyApp(2, true, s.world.legacyRunning - {OfApp(2)});
    var stopped := Do(s, stop);
    ReachOn(s, stop, stopped);
    t := Do(stopped, UpApp(2, Good, true));
    ReachOn(stopped, UpApp(2, Good, true), t);
  }

  /**
    So a rollback all of whose commands succeed can leave a v2 project running beside
    the restored legacy project, even under the usual system name.
  */
  lemma CleanRollbackMayLeaveStranger() returns (states: seq<State>, steps: seq<Step>)
    ensures Run(states, steps)
    ensures var t := states[|steps|];
            t.phase.Returned? && CleanRollback(t.trace) && t.cfg.systemName == REEFY_SYSTEM && t.world.v2Running != {}
  {
    var s := NewerStateMayMeetStranger();
    assert OfInstance(2) in s.world.v2Running && 2 !in s.world.desired.apps;
    assert !Recoverable(s.world.desired, s.world);
    var t := StrangerStays(s);
    ReachOn(s, Begin, Begun(s));
    LeadsKeeps(Begun(s), t);
    ReachableInv(t);
    states, steps :| Run(states, steps) && states[|steps|] == t;
  }

  /** And a migration can commit without a system project, when that has another name. */
  lemma CommitMayStopSystem() returns (states: seq<State>, steps: seq<Step>)
    ensures Run(states, steps)
    ensures var t := states[|steps|]; t.phase == Returned(Committed) && System(t.cfg) !in t.world.v2Running
  {
    var s := AnyStateMayBegin(DesiredApps({1}).(systemName := 1));
    var t := CommitsWithoutSystem(s);
    ReachOn(s, Begin, Begun(s));
    LeadsKeeps(Begun(s), t);
    states, steps :| Run(states, steps) && states[|steps|] == t;
  }
}
