/**
  Which apps an attempt reports running when it returns: exactly those that its outcome
  and the trace call for.
 */
module MigrationReports {
  import opened Migration
  import opened MigrationTrace
  import opened MigrationWorld
  import opened MigrationRuns

  /** The apps to be reported running, by how the attempt ends. */
  ghost function Due(cfg: Config, entry: World, trace: seq<Event>, result: Result): set<AppId> {
    set a | a in cfg.apps && a !in cfg.stopped &&
            match result
            case Committed => true
            case LegacyUntouched =>
              && entry.legacyCompose && OfApp(a) in entry.legacy
              && AppPrepared(a) in trace && (exists b :: b in cfg.apps && AppNotPrepared(b) in trace)
            case RolledBack(clean) =>
              clean && entry.legacyCompose && OfApp(a) in entry.legacy && ReportedFailed(a) !in trace
  }

  ghost predicate NotFailed(cfg: Config, trace: seq<Event>, report: set<AppId>) {
    report == set a | a in cfg.apps && ReportedFailed(a) !in trace
  }

  ghost predicate Owed(cfg: Config, entry: World, trace: seq<Event>, pending: set<AppId>, result: Result) {
    forall a :: a in pending || ReportedRunning(a) in trace <==> a in Due(cfg, entry, trace, result)
  }

  ghost predicate ReportInv(s: State) {
    match s.phase
    case PrepareApps(results) =>
      && (forall a :: AppPrepared(a) in s.trace ==> a in results && results[a] == Good)
      && (forall a :: AppNotPrepared(a) in s.trace ==> a in results && results[a] != Good)
    case Reconcile(pcs) => forall a :: a in pcs && (pcs[a] == Finished(Bad) || pcs[a] == OfferLegacyStart) ==> ReportedFailed(a) in s.trace
    case RollbackApps(_, _, report) => NotFailed(s.cfg, s.trace, report)
    case RollbackSystem(_, report) => NotFailed(s.cfg, s.trace, report)
    case RollbackUp(_, report) => NotFailed(s.cfg, s.trace, report)
    case Publish(pending, result) => Owed(s.cfg, s.entry, s.trace, pending, result)
    case Returned(result) => Owed(s.cfg, s.entry, s.trace, {}, result)
    case _ => true
  }

  lemma ReportByPrepare(s: State, step: Step)
    requires TraceInv(s) && ReportInv(s) && Enabled(s, step) && IsPrepare(step)
    ensures ReportInv(Do(s, step))
  {
    if step.EndPrepare? && Do(s, step).phase.Publish? {
      PreparedAreOwed(s);
    }
  }

  lemma PreparedAreOwed(s: State)
    requires TraceInv(s) && ReportInv(s) && Enabled(s, EndPrepare) && Do(s, EndPrepare).phase.Publish?
    ensures ReportInv(Do(s, EndPrepare))
  {
    var t := Do(s, EndPrepare);
    var b :| b in s.phase.results && !s.phase.results[b].Good?;
    assert AppNotPrepared(b) in s.trace;
    forall a
      ensures a in t.phase.pending <==> a in Due(s.cfg, s.entry, s.trace, LegacyUntouched)
    {
    }
    assert forall a :: ReportedRunning(a) !in s.trace;
  }

  lemma ReportByHandoff(s: State, step: Step)
    requires TraceInv(s) && ReportInv(s) && Enabled(s, step) && IsHandoff(step)
    ensures ReportInv(Do(s, step))
  {
  }

  lemma ReportByReconcile(s: State, step: Step)
    requires TraceInv(s) && ReportInv(s) && Enabled(s, step) && IsReconcile(step)
    ensures ReportInv(Do(s, step))
  {
    if step.EndReconcile? {
      FailedAreReported(s);
    } else {
      ReportByApp(s, step);
    }
  }

  lemma ReportByApp(s: State, step: Step)
    requires ReportInv(s) && Enabled(s, step) && IsReconcile(step) && !step.EndReconcile?
    ensures ReportInv(Do(s, step))
  {
    var t := Do(s, step);
    forall a | a in t.phase.pcs && (t.phase.pcs[a] == Finished(Bad) || t.phase.pcs[a] == OfferLegacyStart)
      ensures ReportedFailed(a) in t.trace
    {
      assert a != step.app ==> a in s.phase.pcs && s.phase.pcs[a] == t.phase.pcs[a];
    }
  }

  lemma FailedAreReported(s: State)
    requires TraceInv(s) && ReportInv(s) && Enabled(s, EndReconcile)
    ensures ReportInv(Do(s, EndReconcile))
  {
    forall a | a in s.cfg.apps
      ensures a in FailedApps(s.phase.pcs) <==> ReportedFailed(a) in s.trace
    {
      assert AppInv(s.cfg, s.trace, a, s.phase.pcs[a]);
    }
    assert s.cfg.apps - FailedApps(s.phase.pcs) == set a | a in s.cfg.apps && ReportedFailed(a) !in s.trace;
  }

  lemma ReportByCommit(s: State, step: Step)
    requires TraceInv(s) && ReportInv(s) && Enabled(s, step) && IsCommit(step)
    ensures ReportInv(Do(s, step))
  {
  }

  lemma ReportByRollback(s: State, step: Step)
    requires TraceInv(s) && ReportInv(s) && Enabled(s, step) && IsRollback(step)
    ensures ReportInv(Do(s, step))
  {
    var t := Do(s, step);
    assert forall a :: ReportedFailed(a) in t.trace <==> ReportedFailed(a) in s.trace;
    if step.RollbackUpLegacy? {
      assert forall a :: ReportedRunning(a) !in t.trace;
      assert t.phase.pending == Due(t.cfg, t.entry, t.trace, t.phase.result);
    }
  }

  lemma ReportByPublish(s: State, step: Step)
    requires TraceInv(s) && ReportInv(s) && Enabled(s, step) && (step.PublishRunning? || step.EndPublish?)
    ensures ReportInv(Do(s, step))
  {
    var t := Do(s, step);
    assert Due(t.cfg, t.entry, t.trace, s.phase.result) == Due(s.cfg, s.entry, s.trace, s.phase.result);
  }

  lemma ReportKept(s: State, step: Step)
    requires TraceInv(s) && ReportInv(s) && Enabled(s, step)
    ensures ReportInv(Do(s, step))
  {
    if IsPrepare(step) {
      ReportByPrepare(s, step);
    } else if IsHandoff(step) {
      ReportByHandoff(s, step);
    } else if IsReconcile(step) {
      ReportByReconcile(s, step);
    } else if IsCommit(step) {
      ReportByCommit(s, step);
    } else if IsRollback(step) {
      ReportByRollback(s, step);
    } else if step.PublishRunning? || step.EndPublish? {
      ReportByPublish(s, step);
    }
  }

  lemma {:induction false} RunReports(states: seq<State>, steps: seq<Step>, k: nat)
    requires Run(states, steps) && k < |states|
    ensures ReportInv(states[k])
  {
    if k > 0 {
      RunReports(states, steps, k - 1);
      RunInv(states, steps, k - 1);
      assert StepAt(states, steps, k - 1);
      ReportKept(states[k - 1], steps[k - 1]);
    }
  }

  /**
    An attempt that has returned reported an app running if and only if the app shall
    run, and: the attempt committed; or it left the legacy project alone because another
    app was not prepared, and this one was, and has a legacy service; or it rolled back
    cleanly, the app was not reported failed, and has a legacy service.
   */
  lemma ReportedExactly(states: seq<State>, steps: seq<Step>, k: nat, a: AppId)
    requires Run(states, steps) && k < |states| && states[k].phase.Returned?
    ensures var s := states[k];
            ReportedRunning(a) in s.trace <==>
              && a in s.cfg.apps && a !in s.cfg.stopped
              && match s.phase.result
                 case Committed => true
                 case LegacyUntouched =>
                   && s.entry.legacyCompose && OfApp(a) in s.entry.legacy
                   && AppPrepared(a) in s.trace && (exists b :: b in s.cfg.apps && AppNotPrepared(b) in s.trace)
                 case RolledBack(clean) =>
                   clean && s.entry.legacyCompose && OfApp(a) in s.entry.legacy && ReportedFailed(a) !in s.trace
  {
    RunReports(states, steps, k);
  }

  // ---- Which apps are reported failed ---------------------------------------------------------------

  /** This step goes wrong for the app; being overtaken by a newer request is not going wrong. */
  predicate GoesWrong(step: Step, a: AppId) {
    match step
    case AppPrepare(app, result, _) => app == a && result.Bad?
    case StopLegacyApp(app, ok, _) => app == a && !ok
    case StopApp(app, ok, _) => app == a && !ok
    case UpApp(app, result, _) => app == a && result.Bad?
    case _ => false
  }

  lemma FailedByStep(s: State, step: Step, a: AppId)
    requires Enabled(s, step) && !step.Begin?
    ensures ReportedFailed(a) in Do(s, step).trace <==> ReportedFailed(a) in s.trace || GoesWrong(step, a)
  {
  }

  ghost predicate WentWrong(steps: seq<Step>, i: nat, k: nat, a: AppId) {
    i < k <= |steps| && GoesWrong(steps[i], a) && forall j :: i < j < k ==> !steps[j].Begin?
  }

  /** An app is reported failed exactly when some step of this attempt went wrong for it. */
  lemma {:induction false} FailedExactly(states: seq<State>, steps: seq<Step>, k: nat, a: AppId)
    requires Run(states, steps) && k < |states|
    ensures ReportedFailed(a) in states[k].trace <==> exists i: nat :: WentWrong(steps, i, k, a)
  {
    if k > 0 {
      var last := k - 1;
      FailedExactly(states, steps, last, a);
      assert StepAt(states, steps, last);
      if !steps[last].Begin? {
        FailedByStep(states[last], steps[last], a);
        if i: nat :| WentWrong(steps, i, last, a) {
          assert WentWrong(steps, i, k, a);
        }
        assert GoesWrong(steps[last], a) ==> WentWrong(steps, last, k, a);
      }
      if i: nat :| WentWrong(steps, i, k, a) {
        if i < last {
          assert WentWrong(steps, i, last, a);
        }
      }
    }
  }

  /**
    An attempt begins only while there is v1 state to migrate, a v2 state to migrate to
    and no marker, and it works for the desired state saved last; so began every attempt
    that is under way or has returned.
  */
  lemma {:induction false} AttemptsBeginPending(states: seq<State>, steps: seq<Step>, k: nat)
    requires Run(states, steps) && k < |states| && !states[k].phase.Idle?
    ensures states[k].entry.v1State && states[k].entry.v2State && !states[k].entry.marker && states[k].cfg == states[k].entry.desired
  {
    if k > 0 {
      assert StepAt(states, steps, k - 1);
      if !states[k - 1].phase.Idle? {
        AttemptsBeginPending(states, steps, k - 1);
      }
      AttemptGoesOn(states[k - 1], steps[k - 1]);
    }
  }

  lemma AttemptGoesOn(s: State, step: Step)
    requires Enabled(s, step) && !Do(s, step).phase.Idle?
    ensures step.Begin? || (!s.phase.Idle? && Do(s, step).entry == s.entry && Do(s, step).cfg == s.cfg)
    ensures step.Begin? ==>
              var t := Do(s, step);
              t.entry == s.world && s.world.v1State && s.world.v2State && !s.world.marker && t.cfg == s.world.desired
  {
  }
}
