/**
  What the trace of a migration attempt obeys: which events must have happened before
  which, whatever the commands do.
 */
module MigrationTrace {
  import opened Migration

  // ---- Laws of the trace -----------------------------------------------------------

  ghost predicate AllPrepared(cfg: Config, trace: seq<Event>) {
    SystemPrepared in trace && forall a :: a in cfg.apps ==> AppPrepared(a) in trace
  }

  /** The app's own project is in its desired state. */
  ghost predicate Reconciled(cfg: Config, trace: seq<Event>, a: AppId) {
    && LegacyStop({OfApp(a)}, true) in trace
    && (if a in cfg.stopped then AppStop(a, true) in trace else AppUp(a, true) in trace)
  }

  ghost predicate AllReconciled(cfg: Config, trace: seq<Event>) {
    && AllPrepared(cfg, trace) && SystemUp(true) in trace
    && forall a :: a in cfg.apps ==> Reconciled(cfg, trace, a)
  }

  predicate Destructive(e: Event) {
    e.LegacyStop? || e.LegacyRemove? || e.LegacyDown?
  }

  ghost predicate NothingDestroyed(trace: seq<Event>) {
    forall e :: e in trace ==> !Destructive(e)
  }

  ghost predicate NoFailedRollback(trace: seq<Event>) {
    RollbackRemoveSystem(false) !in trace && forall a :: RollbackStop(a, false) !in trace
  }

  /** No rollback has begun. */
  ghost predicate NoRollback(trace: seq<Event>) {
    NoFailedRollback(trace) && LegacyUp(true) !in trace
  }

  /** Every command of the rollback succeeded. */
  ghost predicate CleanRollback(trace: seq<Event>) {
    LegacyUp(true) in trace && NoFailedRollback(trace)
  }

  ghost predicate NothingReported(trace: seq<Event>) {
    forall a :: ReportedRunning(a) !in trace
  }

  /** When an app of the legacy project may be reported running again. */
  ghost predicate LegacySettled(trace: seq<Event>, a: AppId) {
    || (NothingDestroyed(trace) && AppPrepared(a) in trace && exists b :: AppNotPrepared(b) in trace)
    || CleanRollback(trace)
  }

  /** What must have happened in the attempt before an event. */
  ghost predicate Allowed(cfg: Config, entry: World, before: seq<Event>, e: Event) {
    && (Destructive(e) ==> AllPrepared(cfg, before))
    && (e.AppUp? ==> LegacyStop({OfApp(e.app)}, true) in before)
    && (e.LegacyDown? ==> AllReconciled(cfg, before))
    && (e.MarkerWritten? ==> AllReconciled(cfg, before) && (entry.legacyCompose ==> LegacyDown(true) in before))
    && (e.ReportedRunning? ==>
          && e.app in cfg.apps && e.app !in cfg.stopped && e !in before
          && (MarkerWritten in before
              || (OfApp(e.app) in LegacyServices(entry) && ReportedFailed(e.app) !in before && LegacySettled(before, e.app))))
  }

  ghost predicate Lawful(cfg: Config, entry: World, trace: seq<Event>) {
    forall i :: 0 <= i < |trace| ==> Allowed(cfg, entry, trace[..i], trace[i])
  }

  lemma LawfulAppend(cfg: Config, entry: World, trace: seq<Event>, e: Event)
    requires Lawful(cfg, entry, trace) && Allowed(cfg, entry, trace, e)
    ensures Lawful(cfg, entry, trace + [e])
  {
    var longer := trace + [e];
    forall i | 0 <= i < |longer|
      ensures Allowed(cfg, entry, longer[..i], longer[i])
    {
      assert longer[..i] == trace[..i];
      assert trace[..|trace|] == trace;
    }
  }

  /** A trace event that no law restricts. */
  lemma LawfulFree(cfg: Config, entry: World, trace: seq<Event>, e: Event)
    requires Lawful(cfg, entry, trace)
    requires !Destructive(e) && !e.AppUp? && !e.MarkerWritten? && !e.ReportedRunning?
    ensures Lawful(cfg, entry, trace + [e])
  {
    LawfulAppend(cfg, entry, trace, e);
  }

  // ---- Invariant of an attempt --------------------------------------------------------

  ghost predicate PrepareInv(cfg: Config, trace: seq<Event>, results: map<AppId, AppResult>) {
    && SystemPrepared in trace && results.Keys <= cfg.apps
    && NothingDestroyed(trace) && NothingReported(trace) && NoRollback(trace)
    && (forall a :: a in results ==> if results[a].Good? then AppPrepared(a) in trace else AppNotPrepared(a) in trace)
    && (forall a :: ReportedFailed(a) in trace ==> a in results && results[a] == Bad)
  }

  ghost predicate HandoffInv(cfg: Config, trace: seq<Event>) {
    && AllPrepared(cfg, trace) && NothingReported(trace) && NoRollback(trace)
    && forall a :: ReportedFailed(a) !in trace
  }

  /** What the trace shows of one app while the apps reconcile. */
  ghost predicate AppInv(cfg: Config, trace: seq<Event>, a: AppId, pc: AppPc) {
    && (pc.LegacyStopped? || pc.OfferLegacyStart? ==> LegacyStop({OfApp(a)}, true) in trace)
    && (pc == Finished(Good) ==> Reconciled(cfg, trace, a))
    && (ReportedFailed(a) in trace ==> pc == Finished(Bad) || pc == OfferLegacyStart)
  }

  ghost predicate ReconcileInv(cfg: Config, trace: seq<Event>, pcs: map<AppId, AppPc>) {
    && AllPrepared(cfg, trace) && SystemUp(true) in trace && NothingReported(trace) && NoRollback(trace)
    && pcs.Keys == cfg.apps
    && (forall a :: a in pcs ==> AppInv(cfg, trace, a, pcs[a]))
    && (forall a :: ReportedFailed(a) in trace ==> a in pcs)
  }

  ghost predicate CommitInv(cfg: Config, trace: seq<Event>) {
    HandoffInv(cfg, trace) && AllReconciled(cfg, trace)
  }

  ghost predicate RollbackInv(cfg: Config, trace: seq<Event>, clean: bool, report: set<AppId>) {
    && NothingReported(trace) && report <= cfg.apps && LegacyUp(true) !in trace
    && (clean <==> NoFailedRollback(trace))
    && (forall a :: a in report ==> ReportedFailed(a) !in trace)
  }

  ghost predicate PublishInv(cfg: Config, entry: World, trace: seq<Event>, pending: set<AppId>, result: Result) {
    && (forall a :: a in pending ==> a in cfg.apps && a !in cfg.stopped && ReportedRunning(a) !in trace)
    && match result
       case Committed =>
         && MarkerWritten in trace && !CleanRollback(trace)
         && (forall a :: a in cfg.apps && a !in cfg.stopped ==> a in pending || ReportedRunning(a) in trace)
       case LegacyUntouched =>
         && NothingDestroyed(trace) && MarkerWritten !in trace && !CleanRollback(trace)
         && (forall a :: a in pending ==> OfApp(a) in LegacyServices(entry) && ReportedFailed(a) !in trace && LegacySettled(trace, a))
       case RolledBack(clean) =>
         && (clean <==> CleanRollback(trace))
         && (!clean ==> pending == {})
         && (forall a :: a in pending ==> OfApp(a) in LegacyServices(entry) && ReportedFailed(a) !in trace)
  }

  ghost predicate PhaseInv(cfg: Config, entry: World, trace: seq<Event>, phase: Phase) {
    match phase
    case Idle => true
    case PrepareSystem => trace == []
    case PrepareApps(results) => PrepareInv(cfg, trace, results)
    case HandoffClean => HandoffInv(cfg, trace) && NothingDestroyed(trace)
    case HandoffStop => HandoffInv(cfg, trace)
    case HandoffRemove => HandoffInv(cfg, trace)
    case StartSystem => HandoffInv(cfg, trace)
    case RemoveAbsent => HandoffInv(cfg, trace) && SystemUp(true) in trace
    case Reconcile(pcs) => ReconcileInv(cfg, trace, pcs)
    case CommitDown => CommitInv(cfg, trace)
    case CommitMark => CommitInv(cfg, trace) && LegacyDown(true) in trace
    case CommitForgetState => MarkerWritten in trace && NothingReported(trace) && NoRollback(trace)
    case CommitForgetCompose => MarkerWritten in trace && NothingReported(trace) && NoRollback(trace)
    case RollbackApps(left, clean, report) => left <= cfg.apps && RollbackInv(cfg, trace, clean, report)
    case RollbackSystem(clean, report) => RollbackInv(cfg, trace, clean, report)
    case RollbackUp(clean, report) => RollbackInv(cfg, trace, clean, report)
    case Publish(pending, result) => PublishInv(cfg, entry, trace, pending, result)
    case Returned(result) => PublishInv(cfg, entry, trace, {}, result)
  }

  ghost predicate TraceInv(s: State) {
    Lawful(s.cfg, s.entry, s.trace) && PhaseInv(s.cfg, s.entry, s.trace, s.phase)
  }

  lemma PreparedOne(cfg: Config, entry: World, trace: seq<Event>, results: map<AppId, AppResult>, app: AppId)
    requires Lawful(cfg, entry, trace) && PrepareInv(cfg, trace, results) && app in cfg.apps && app !in results
    ensures Lawful(cfg, entry, trace + [AppPrepared(app)])
    ensures PrepareInv(cfg, trace + [AppPrepared(app)], results[app := Good])
  {
    LawfulFree(cfg, entry, trace, AppPrepared(app));
  }

  lemma NotPreparedOne(cfg: Config, entry: World, trace: seq<Event>, results: map<AppId, AppResult>, app: AppId)
    requires Lawful(cfg, entry, trace) && PrepareInv(cfg, trace, results) && app in cfg.apps && app !in results
    ensures Lawful(cfg, entry, trace + [AppNotPrepared(app)])
    ensures PrepareInv(cfg, trace + [AppNotPrepared(app)], results[app := Overtaken])
    ensures Lawful(cfg, entry, trace + [AppNotPrepared(app)] + [ReportedFailed(app)])
    ensures PrepareInv(cfg, trace + [AppNotPrepared(app)] + [ReportedFailed(app)], results[app := Bad])
  {
    LawfulFree(cfg, entry, trace, AppNotPrepared(app));
    LawfulFree(cfg, entry, trace + [AppNotPrepared(app)], ReportedFailed(app));
  }

  lemma PrepareEnds(s: State)
    requires TraceInv(s) && Enabled(s, EndPrepare)
    ensures TraceInv(Do(s, EndPrepare))
  {
    var results := s.phase.results;
    if a :| a in results && !results[a].Good? {
      assert AppNotPrepared(a) in s.trace;
      var prepared := set b | b in results && results[b].Good?;
      assert PublishInv(s.cfg, s.entry, s.trace, LegacyReports(s.cfg, s.entry, prepared), LegacyUntouched) by {
        if MarkerWritten in s.trace {
          MarkerNeedsStops(s.cfg, s.entry, s.trace);
        }
      }
    } else {
      assert HandoffInv(s.cfg, s.trace);
    }
  }

  lemma MarkerNeedsStops(cfg: Config, entry: World, trace: seq<Event>)
    requires Lawful(cfg, entry, trace) && MarkerWritten in trace && cfg.apps != {}
    ensures !NothingDestroyed(trace)
  {
    var i :| 0 <= i < |trace| && trace[i] == MarkerWritten;
    assert Allowed(cfg, entry, trace[..i], trace[i]);
    var a :| a in cfg.apps;
    assert Reconciled(cfg, trace[..i], a);
    assert LegacyStop({OfApp(a)}, true) in trace;
  }

  lemma AppPrepareKeepsTrace(s: State, step: Step)
    requires TraceInv(s) && Enabled(s, step) && step.AppPrepare?
    ensures TraceInv(Do(s, step))
  {
    if step.result.Good? {
      PreparedOne(s.cfg, s.entry, s.trace, s.phase.results, step.app);
    } else {
      NotPreparedOne(s.cfg, s.entry, s.trace, s.phase.results, step.app);
    }
  }

  lemma PrepareKeepsTrace(s: State, step: Step)
    requires TraceInv(s) && Enabled(s, step) && IsPrepare(step)
    ensures TraceInv(Do(s, step))
  {
    if step.SystemPrepare? {
      SystemPrepareKeepsTrace(s, step);
    } else if step.AppPrepare? {
      AppPrepareKeepsTrace(s, step);
    } else {
      PrepareEnds(s);
    }
  }

  lemma SystemPrepareKeepsTrace(s: State, step: Step)
    requires TraceInv(s) && Enabled(s, step) && step.SystemPrepare?
    ensures TraceInv(Do(s, step))
  {
    LawfulFree(s.cfg, s.entry, s.trace, SystemPrepared);
  }

  lemma HandoffGrows(cfg: Config, trace: seq<Event>, e: Event)
    requires HandoffInv(cfg, trace) && (e.LegacyStop? || e.LegacyRemove? || e.SystemUp?)
    ensures HandoffInv(cfg, trace + [e])
  {
  }

  /** A handoff that fails leaves a rollback with nothing undone yet. */
  lemma HandoffFails(cfg: Config, trace: seq<Event>)
    requires HandoffInv(cfg, trace)
    ensures RollbackInv(cfg, trace, true, cfg.apps)
  {
  }

  lemma HandoffEventKeepsTrace(s: State, step: Step, e: Event)
    requires TraceInv(s) && Enabled(s, step)
    requires match step
             case StopLegacySystem(ok, _) => e == LegacyStop(LegacySystem(s.cfg, s.entry), ok)
             case RemoveLegacySystem(ok) => e == LegacyRemove(LegacySystem(s.cfg, s.entry), ok)
             case UpSystem(ok, _) => e == SystemUp(ok)
             case _ => false
    ensures TraceInv(Do(s, step))
  {
    LawfulAppend(s.cfg, s.entry, s.trace, e);
    HandoffGrows(s.cfg, s.trace, e);
    HandoffFails(s.cfg, s.trace + [e]);
  }

  lemma HandoffKeepsTrace(s: State, step: Step)
    requires TraceInv(s) && Enabled(s, step) && IsHandoff(step)
    ensures TraceInv(Do(s, step))
  {
    match step
    case CleanSystem(_, _) => HandoffFails(s.cfg, s.trace);
    case StopLegacySystem(ok, _) => HandoffEventKeepsTrace(s, step, LegacyStop(LegacySystem(s.cfg, s.entry), ok));
    case RemoveLegacySystem(ok) => HandoffEventKeepsTrace(s, step, LegacyRemove(LegacySystem(s.cfg, s.entry), ok));
    case UpSystem(ok, _) => HandoffEventKeepsTrace(s, step, SystemUp(ok));
    case DropAbsent(_) => AppsBegin(s.cfg, s.trace);
  }

  lemma AppsBegin(cfg: Config, trace: seq<Event>)
    requires HandoffInv(cfg, trace) && SystemUp(true) in trace
    ensures ReconcileInv(cfg, trace, map a | a in cfg.apps :: Todo)
  {
  }

  predicate OnlyAbout(e: Event, app: AppId) {
    match e
    case LegacyStop(services, _) => services == {OfApp(app)}
    case AppUp(a, _) => a == app
    case AppStop(a, _) => a == app
    case ReportedFailed(a) => a == app
    case LegacyStart(a) => a == app
    case _ => false
  }

  /** An event of one app moves that app; the others stay as they were. */
  lemma AppMoves(cfg: Config, trace: seq<Event>, e: Event, pcs: map<AppId, AppPc>, app: AppId, pc: AppPc)
    requires ReconcileInv(cfg, trace, pcs) && app in pcs && OnlyAbout(e, app)
    requires AppInv(cfg, trace + [e], app, pc)
    ensures ReconcileInv(cfg, trace + [e], pcs[app := pc])
  {
    forall a | a in pcs && a != app
      ensures AppInv(cfg, trace + [e], a, pcs[a])
    {
      assert AppInv(cfg, trace, a, pcs[a]);
    }
  }

  lemma StopLegacyKeepsTrace(s: State, step: Step)
    requires TraceInv(s) && Enabled(s, step) && step.StopLegacyApp?
    ensures TraceInv(Do(s, step))
  {
    var app, e, pcs := step.app, LegacyStop({OfApp(step.app)}, step.ok), s.phase.pcs;
    assert AppInv(s.cfg, s.trace, app, pcs[app]);
    LawfulAppend(s.cfg, s.entry, s.trace, e);
    if step.ok {
      AppMoves(s.cfg, s.trace, e, pcs, app, LegacyStopped);
    } else {
      AppMoves(s.cfg, s.trace, e, pcs, app, Todo);
      LawfulFree(s.cfg, s.entry, s.trace + [e], ReportedFailed(app));
      AppMoves(s.cfg, s.trace + [e], ReportedFailed(app), pcs[app := Todo], app, Finished(Bad));
      assert pcs[app := Todo][app := Finished(Bad)] == pcs[app := Finished(Bad)];
    }
  }

  lemma AppCommanded(cfg: Config, entry: World, trace: seq<Event>, pcs: map<AppId, AppPc>, app: AppId, e: Event)
    requires Lawful(cfg, entry, trace) && ReconcileInv(cfg, trace, pcs)
    requires app in pcs && AppInv(cfg, trace, app, pcs[app]) && pcs[app] == LegacyStopped
    requires if app in cfg.stopped then e.AppStop? && e.app == app else e.AppUp? && e.app == app
    ensures Lawful(cfg, entry, trace + [e])
    ensures ReconcileInv(cfg, trace + [e], pcs[app := if e.ok then Finished(Good) else Finished(Overtaken)])
  {
    LawfulAppend(cfg, entry, trace, e);
    AppMoves(cfg, trace, e, pcs, app, if e.ok then Finished(Good) else Finished(Overtaken));
  }

  lemma AppReportedFailed(cfg: Config, entry: World, trace: seq<Event>, pcs: map<AppId, AppPc>, app: AppId, e: Event, next: AppPc)
    requires Lawful(cfg, entry, trace) && ReconcileInv(cfg, trace, pcs)
    requires app in pcs && AppInv(cfg, trace, app, pcs[app]) && pcs[app] == LegacyStopped
    requires if app in cfg.stopped then e.AppStop? && e.app == app else e.AppUp? && e.app == app
    requires next == Finished(Bad) || next == OfferLegacyStart
    ensures Lawful(cfg, entry, trace + [e] + [ReportedFailed(app)])
    ensures ReconcileInv(cfg, trace + [e] + [ReportedFailed(app)], pcs[app := next])
  {
    AppCommandSent(cfg, entry, trace, pcs, app, e);
    FailureFollows(cfg, entry, trace + [e], pcs, app, next);
  }

  lemma AppCommandSent(cfg: Config, entry: World, trace: seq<Event>, pcs: map<AppId, AppPc>, app: AppId, e: Event)
    requires Lawful(cfg, entry, trace) && ReconcileInv(cfg, trace, pcs)
    requires app in pcs && AppInv(cfg, trace, app, pcs[app]) && pcs[app] == LegacyStopped
    requires if app in cfg.stopped then e.AppStop? && e.app == app else e.AppUp? && e.app == app
    ensures Lawful(cfg, entry, trace + [e])
    ensures ReconcileInv(cfg, trace + [e], pcs)
  {
    LawfulAppend(cfg, entry, trace, e);
    AppMoves(cfg, trace, e, pcs, app, LegacyStopped);
    assert pcs[app := LegacyStopped] == pcs;
  }

  lemma FailureFollows(cfg: Config, entry: World, trace: seq<Event>, pcs: map<AppId, AppPc>, app: AppId, next: AppPc)
    requires Lawful(cfg, entry, trace) && ReconcileInv(cfg, trace, pcs)
    requires app in pcs && pcs[app] == LegacyStopped && (next == Finished(Bad) || next == OfferLegacyStart)
    ensures Lawful(cfg, entry, trace + [ReportedFailed(app)])
    ensures ReconcileInv(cfg, trace + [ReportedFailed(app)], pcs[app := next])
  {
    LawfulFree(cfg, entry, trace, ReportedFailed(app));
    assert AppInv(cfg, trace, app, pcs[app]);
    AppMoves(cfg, trace, ReportedFailed(app), pcs, app, next);
  }

  lemma CommandKeepsTrace(s: State, step: Step)
    requires TraceInv(s) && Enabled(s, step) && (step.StopApp? || step.UpApp?)
    ensures TraceInv(Do(s, step))
  {
    var app, pcs := step.app, s.phase.pcs;
    assert AppInv(s.cfg, s.trace, app, pcs[app]);
    if step.UpApp? {
      var e := AppUp(app, step.result.Good?);
      if step.result.Bad? {
        AppReportedFailed(s.cfg, s.entry, s.trace, pcs, app, e, OfferLegacyStart);
      } else {
        AppCommanded(s.cfg, s.entry, s.trace, pcs, app, e);
      }
    } else if step.ok {
      AppCommanded(s.cfg, s.entry, s.trace, pcs, app, AppStop(app, true));
    } else {
      AppReportedFailed(s.cfg, s.entry, s.trace, pcs, app, AppStop(app, false), Finished(Bad));
    }
  }

  lemma ReconcileKeepsTrace(s: State, step: Step)
    requires TraceInv(s) && Enabled(s, step) && IsReconcile(step)
    ensures TraceInv(Do(s, step))
  {
    if step.StopLegacyApp? {
      StopLegacyKeepsTrace(s, step);
    } else if step.StopApp? || step.UpApp? {
      CommandKeepsTrace(s, step);
    } else if step.StartLegacyApp? {
      LawfulFree(s.cfg, s.entry, s.trace, LegacyStart(step.app));
      assert AppInv(s.cfg, s.trace, step.app, s.phase.pcs[step.app]);
      AppMoves(s.cfg, s.trace, LegacyStart(step.app), s.phase.pcs, step.app, Finished(Bad));
    } else {
      ReconcileEnds(s);
    }
  }

  lemma ReconcileEnds(s: State)
    requires TraceInv(s) && Enabled(s, EndReconcile)
    ensures TraceInv(Do(s, EndReconcile))
  {
    var pcs := s.phase.pcs;
    assert forall a :: a in pcs ==> AppInv(s.cfg, s.trace, a, pcs[a]);
  }

  lemma DownKeepsTrace(s: State, step: Step)
    requires TraceInv(s) && Enabled(s, step) && step.DownLegacy?
    ensures TraceInv(Do(s, step))
  {
    LawfulAppend(s.cfg, s.entry, s.trace, LegacyDown(step.ok));
    DownFails(s.cfg, s.trace);
  }

  lemma DownFails(cfg: Config, trace: seq<Event>)
    requires CommitInv(cfg, trace)
    ensures RollbackInv(cfg, trace + [LegacyDown(false)], true, cfg.apps)
    ensures CommitInv(cfg, trace + [LegacyDown(true)])
  {
    forall a | a in cfg.apps
      ensures Reconciled(cfg, trace + [LegacyDown(true)], a)
    {
      assert Reconciled(cfg, trace, a);
    }
  }

  lemma CommitKeepsTrace(s: State, step: Step)
    requires TraceInv(s) && Enabled(s, step) && IsCommit(step)
    requires s.phase.CommitDown? || s.phase.CommitMark? ==> s.world.legacyCompose == s.entry.legacyCompose
    ensures TraceInv(Do(s, step))
  {
    match step
    case DownLegacy(_, _) => DownKeepsTrace(s, step);
    case WriteMarker => LawfulAppend(s.cfg, s.entry, s.trace, MarkerWritten);
    case ForgetState =>
    case ForgetCompose =>
  }

  lemma RollbackOne(cfg: Config, trace: seq<Event>, clean: bool, report: set<AppId>, e: Event, ok: bool)
    requires RollbackInv(cfg, trace, clean, report) && ((e.RollbackStop? && e.ok == ok) || e == RollbackRemoveSystem(ok))
    ensures RollbackInv(cfg, trace + [e], clean && ok, report)
  {
    if clean && !ok {
      assert e in trace + [e];
    }
  }

  lemma RollbackEnds(cfg: Config, entry: World, trace: seq<Event>, clean: bool, report: set<AppId>, ok: bool)
    requires RollbackInv(cfg, trace, clean, report)
    ensures PublishInv(cfg, entry, trace + [LegacyUp(ok)], if ok && clean then LegacyReports(cfg, entry, report) else {}, RolledBack(ok && clean))
  {
    assert NoFailedRollback(trace + [LegacyUp(ok)]) <==> NoFailedRollback(trace);
  }

  lemma RollbackEventKeepsTrace(s: State, step: Step, e: Event)
    requires TraceInv(s) && Enabled(s, step)
    requires match step
             case RollbackStopApp(app, ok, _) => e == RollbackStop(app, ok)
             case RollbackDropSystem(ok, _) => e == RollbackRemoveSystem(ok)
             case _ => false
    ensures TraceInv(Do(s, step))
  {
    LawfulFree(s.cfg, s.entry, s.trace, e);
    RollbackOne(s.cfg, s.trace, s.phase.clean, s.phase.report, e, step.ok);
  }

  lemma RollbackUpKeepsTrace(s: State, step: Step)
    requires TraceInv(s) && Enabled(s, step) && step.RollbackUpLegacy?
    ensures TraceInv(Do(s, step))
  {
    LawfulFree(s.cfg, s.entry, s.trace, LegacyUp(step.ok));
    RollbackEnds(s.cfg, s.entry, s.trace, s.phase.clean, s.phase.report, step.ok);
  }

  lemma RollbackKeepsTrace(s: State, step: Step)
    requires TraceInv(s) && Enabled(s, step) && IsRollback(step)
    ensures TraceInv(Do(s, step))
  {
    match step
    case RollbackStopApp(app, ok, _) => RollbackEventKeepsTrace(s, step, RollbackStop(app, ok));
    case EndRollbackApps =>
    case RollbackDropSystem(ok, _) => RollbackEventKeepsTrace(s, step, RollbackRemoveSystem(ok));
    case RollbackUpLegacy(_, _) => RollbackUpKeepsTrace(s, step);
  }

  lemma SettledStays(trace: seq<Event>, app: AppId, a: AppId)
    requires LegacySettled(trace, a)
    ensures LegacySettled(trace + [ReportedRunning(app)], a)
  {
    var longer := trace + [ReportedRunning(app)];
    if CleanRollback(trace) {
      assert NoFailedRollback(longer);
    } else {
      var b :| AppNotPrepared(b) in trace;
      assert AppNotPrepared(b) in longer && NothingDestroyed(longer);
    }
  }

  lemma PublishOne(cfg: Config, entry: World, trace: seq<Event>, pending: set<AppId>, result: Result, app: AppId)
    requires Lawful(cfg, entry, trace) && PublishInv(cfg, entry, trace, pending, result) && app in pending
    ensures Lawful(cfg, entry, trace + [ReportedRunning(app)])
    ensures PublishInv(cfg, entry, trace + [ReportedRunning(app)], pending - {app}, result)
  {
    LawfulAppend(cfg, entry, trace, ReportedRunning(app));
    PublishedOne(cfg, entry, trace, pending, result, app);
  }

  lemma PublishedOne(cfg: Config, entry: World, trace: seq<Event>, pending: set<AppId>, result: Result, app: AppId)
    requires PublishInv(cfg, entry, trace, pending, result) && app in pending
    ensures PublishInv(cfg, entry, trace + [ReportedRunning(app)], pending - {app}, result)
  {
    var longer := trace + [ReportedRunning(app)];
    assert CleanRollback(longer) <==> CleanRollback(trace) by {
      assert NoFailedRollback(longer) <==> NoFailedRollback(trace);
    }
    if result.LegacyUntouched? {
      forall a | a in pending
        ensures LegacySettled(longer, a)
      {
        SettledStays(trace, app, a);
      }
    }
  }

  lemma PublishKeepsTrace(s: State, step: Step)
    requires TraceInv(s) && Enabled(s, step) && step.PublishRunning?
    ensures TraceInv(Do(s, step))
  {
    PublishOne(s.cfg, s.entry, s.trace, s.phase.pending, s.phase.result, step.app);
  }

  lemma TraceKept(s: State, step: Step)
    requires TraceInv(s) && Enabled(s, step)
    requires s.phase.CommitDown? || s.phase.CommitMark? ==> s.world.legacyCompose == s.entry.legacyCompose
    ensures TraceInv(Do(s, step))
  {
    if IsPrepare(step) {
      PrepareKeepsTrace(s, step);
    } else if IsHandoff(step) {
      HandoffKeepsTrace(s, step);
    } else if IsReconcile(step) {
      ReconcileKeepsTrace(s, step);
    } else if IsCommit(step) {
      CommitKeepsTrace(s, step);
    } else if IsRollback(step) {
      RollbackKeepsTrace(s, step);
    } else if step.PublishRunning? {
      PublishKeepsTrace(s, step);
    }
  }
}
