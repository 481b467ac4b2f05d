/**
  What holds over every run of the migration: any number of attempts, each for the
  desired state saved last, with crashes and reboots at any point.
 */
module MigrationRuns {
  import opened Migration
  import opened MigrationTrace
  import opened MigrationWorld

  /** A device that has seen no v2 state. */
  predicate Initial(s: State) {
    s.phase.Idle? && s.trace == [] && !s.world.v2State && !s.world.marker && s.world.v2Running == {}
  }

  ghost predicate StepAt(states: seq<State>, steps: seq<Step>, i: nat)
    requires i < |steps| < |states|
  {
    Enabled(states[i], steps[i]) && states[i + 1] == Do(states[i], steps[i])
  }

  ghost predicate Path(states: seq<State>, steps: seq<Step>) {
    |states| == |steps| + 1 && forall i :: 0 <= i < |steps| ==> StepAt(states, steps, i)
  }

  ghost predicate Run(states: seq<State>, steps: seq<Step>) {
    Path(states, steps) && Initial(states[0])
  }

  ghost predicate Inv(s: State) {
    FilesInv(s) && TraceInv(s) && ContainersInv(s)
  }

  lemma InvKept(s: State, step: Step)
    requires Inv(s) && Enabled(s, step)
    ensures Inv(Do(s, step)) && Forward(s.world, Do(s, step).world)
  {
    FilesKept(s, step);
    TraceKept(s, step);
    ContainersKept(s, step);
  }

  lemma {:induction false} RunInv(states: seq<State>, steps: seq<Step>, k: nat)
    requires Run(states, steps) && k < |states|
    ensures Inv(states[k])
  {
    if k > 0 {
      RunInv(states, steps, k - 1);
      assert StepAt(states, steps, k - 1);
      InvKept(states[k - 1], steps[k - 1]);
    }
  }

  lemma {:induction false} FilesMoveForward(states: seq<State>, steps: seq<Step>, i: nat, k: nat)
    requires Run(states, steps) && i <= k < |states|
    ensures Forward(states[i].world, states[k].world)
    decreases k
  {
    if i < k {
      FilesMoveForward(states, steps, i, k - 1);
      assert StepAt(states, steps, k - 1);
      RunInv(states, steps, k - 1);
      InvKept(states[k - 1], steps[k - 1]);
    }
  }

  lemma {:induction false} SwitchedOnce(states: seq<State>, steps: seq<Step>, i: nat, k: nat)
    requires Run(states, steps) && i <= k < |states| && states[i].world.v2State
    ensures states[k].switched == states[i].switched
    decreases k
  {
    if i < k {
      SwitchedOnce(states, steps, i, k - 1);
      FilesMoveForward(states, steps, i, k - 1);
      assert StepAt(states, steps, k - 1);
      SwitchStays(states[k - 1], steps[k - 1]);
    }
  }

  lemma SwitchStays(s: State, step: Step)
    requires Enabled(s, step) && s.world.v2State
    ensures Do(s, step).switched == s.switched
  {
  }

  /**
    Whatever commands fail, wherever the data plane crashes and whatever v2 states
    follow: from the first v2 state on until the marker is written, the v1 state and
    the legacy Compose file never change, so a restart can still take over from v1.
  */
  lemma LegacyFilesSurviveUntilMarker(states: seq<State>, steps: seq<Step>, i: nat, k: nat)
    requires Run(states, steps) && i <= k < |states|
    requires states[i].world.v2State && !states[k].world.marker
    ensures SameLegacy(states[k].world, states[i].world)
  {
    RunInv(states, steps, i);
    RunInv(states, steps, k);
    FilesMoveForward(states, steps, i, k);
    SwitchedOnce(states, steps, i, k);
  }

  /** Once written, the marker ends the migration for good, and no v1 state is accepted again. */
  lemma CommittedForGood(states: seq<State>, steps: seq<Step>, i: nat, k: nat)
    requires Run(states, steps) && i <= k < |steps| && states[i].world.marker
    ensures !Pending(states[k].world)
    ensures !steps[k].Begin? && !steps[k].ApplyV1?
  {
    FilesMoveForward(states, steps, i, k);
    RunInv(states, steps, k);
    assert StepAt(states, steps, k);
  }

  /**
    The marker is written only in an attempt that prepared and started the system
    project, reconciled every app of its own desired state after stopping its legacy
    container, and took the legacy project down if there was one.
  */
  lemma MarkerAfterEverything(states: seq<State>, steps: seq<Step>, k: nat)
    requires Run(states, steps) && k < |steps|
    requires !states[k].world.marker && states[k + 1].world.marker
    ensures AllReconciled(states[k].cfg, states[k].trace)
    ensures states[k].world.legacyCompose ==> LegacyDown(true) in states[k].trace
  {
    RunInv(states, steps, k);
    assert StepAt(states, steps, k);
    MarkerStep(states[k], steps[k]);
  }

  lemma MarkerStep(s: State, step: Step)
    requires Enabled(s, step) && !s.world.marker && Do(s, step).world.marker
    ensures step.WriteMarker?
  {
  }

  /** Every attempt, at every moment and after any interruption, obeys the laws of the trace for its own desired state. */
  lemma EveryAttemptIsLawful(states: seq<State>, steps: seq<Step>, k: nat, i: nat)
    requires Run(states, steps) && k < |states| && i < |states[k].trace|
    ensures Allowed(states[k].cfg, states[k].entry, states[k].trace[..i], states[k].trace[i])
  {
    RunInv(states, steps, k);
  }

  /**
    An attempt that returns has committed, or never touched the legacy project, or
    rolled back. Strangers are v2 projects of other desired states that ran when it
    began; no others run when it ends.
  */
  lemma AttemptsEndSettled(states: seq<State>, steps: seq<Step>, k: nat)
    requires Run(states, steps) && k < |states| && states[k].phase.Returned?
    ensures var s := states[k];
            match s.phase.result
            case Committed =>
              && s.world.marker && !s.world.v1State && !s.world.legacyCompose
              && (s.entry.legacyCompose ==> s.world.legacyRunning == {})
              && AllInPlace(s.cfg, s.world) && s.world.v2Running - Own(s.cfg) <= s.entry.v2Running
            case LegacyUntouched =>
              && Pending(s.world) && NothingDestroyed(s.trace)
              && s.world.legacyRunning == s.entry.legacyRunning && s.world.v2Running == s.entry.v2Running
            case RolledBack(clean) =>
              && Pending(s.world) && (clean <==> CleanRollback(s.trace))
              && s.world.v2Running - Own(s.cfg) <= s.entry.v2Running
  {
    RunInv(states, steps, k);
  }

  /** A committed attempt with the usual system name and no strangers leaves exactly the wanted projects running. */
  lemma CommittedRunsWanted(states: seq<State>, steps: seq<Step>, k: nat)
    requires Run(states, steps) && k < |states| && states[k].phase == Returned(Committed)
    requires states[k].cfg.systemName == REEFY_SYSTEM && states[k].entry.v2Running <= Own(states[k].cfg)
    ensures states[k].world.v2Running == WantedRunning(states[k].cfg)
  {
    RunInv(states, steps, k);
    var s := states[k];
    forall p | p in s.world.v2Running
      ensures p in WantedRunning(s.cfg)
    {
      assert p in Own(s.cfg);
      assert p.OfInstance? ==> InPlace(s.cfg, s.world, p.app);
    }
    forall p | p in WantedRunning(s.cfg)
      ensures p in s.world.v2Running
    {
      assert p.OfInstance? ==> InPlace(s.cfg, s.world, p.app);
    }
  }

  /**
    When the legacy `up` and every other command of a rollback succeeded, the whole
    legacy project is up again; and if the attempt began in a world it can clean up, no
    v2 project runs.
  */
  lemma CleanRollbackRestores(states: seq<State>, steps: seq<Step>, k: nat)
    requires Run(states, steps) && k < |states| && states[k].phase.Returned? && CleanRollback(states[k].trace)
    ensures var s := states[k];
            && Pending(s.world) && s.entry.legacyCompose
            && s.entry.legacy <= s.world.legacyRunning <= s.entry.legacyRunning + s.entry.legacy
            && (CleanEntry(s.cfg, s.entry) ==> s.world.v2Running == {})
  {
    RunInv(states, steps, k);
  }

  /**
    Terminal health of a committed attempt: every app desired running is reported
    running, exactly once.
  */
  lemma CommittedAppsReportedOnce(states: seq<State>, steps: seq<Step>, k: nat, a: AppId)
    requires Run(states, steps) && k < |states| && states[k].phase.Returned? && states[k].phase.result.Committed?
    requires a in states[k].cfg.apps && a !in states[k].cfg.stopped
    ensures exists i :: 0 <= i < |states[k].trace| && states[k].trace[i] == ReportedRunning(a)
                        && forall j :: 0 <= j < |states[k].trace| && states[k].trace[j] == ReportedRunning(a) ==> j == i
  {
    RunInv(states, steps, k);
    var trace := states[k].trace;
    var i :| 0 <= i < |trace| && trace[i] == ReportedRunning(a);
    forall j | 0 <= j < |trace| && trace[j] == ReportedRunning(a)
      ensures j == i
    {
      ReportedOnce(states[k].cfg, states[k].entry, trace, a, i, j);
    }
  }

  lemma ReportedOnce(cfg: Config, entry: World, trace: seq<Event>, a: AppId, i: nat, j: nat)
    requires Lawful(cfg, entry, trace) && i < |trace| && j < |trace|
    requires trace[i] == ReportedRunning(a) && trace[j] == ReportedRunning(a)
    ensures i == j
  {
    if i < j {
      SecondReportForbidden(cfg, entry, trace, a, i, j);
    } else if j < i {
      SecondReportForbidden(cfg, entry, trace, a, j, i);
    }
  }

  lemma SecondReportForbidden(cfg: Config, entry: World, trace: seq<Event>, a: AppId, i: nat, j: nat)
    requires i < j < |trace| && trace[i] == ReportedRunning(a) && trace[j] == ReportedRunning(a)
    ensures !Allowed(cfg, entry, trace[..j], trace[j])
  {
    assert trace[..j][i] == ReportedRunning(a);
  }
}
