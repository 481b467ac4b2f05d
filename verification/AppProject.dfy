/**
  Preparing and starting one app project. Required services decide the outcome;
  optional services only report.
 */
module AppProject {
  import opened Sequences
  import opened Services
  import opened InitServices
  import opened AppPlan

  // ---- Failure markers -------------------------------------------------------

  /** A start fingerprint covers the whole Compose file and the services it starts. */
  datatype StartSignature = StartSignature(definitions: map<Name, Definition>, services: set<Name>)

  datatype MarkerKey = RequiredMarker | OptionalMarker(service: Name)

  datatype Marker = Marker(versionTwo: bool, signature: StartSignature, services: set<Name>)

  datatype Context = Context(signature: StartSignature, accepted: set<StartSignature>, services: set<Name>)

  function StartSignatureOf(c: Compose, services: set<Name>): StartSignature {
    StartSignature(map n | n in c.defs :: DefinitionOf(c.defs[n]), services)
  }

  function NewMarker(context: Context): Marker {
    Marker(true, context.signature, context.services)
  }

  function RequiredContext(c: Compose, plan: Plan): Context {
    var signature := StartSignatureOf(c, plan.required);
    Context(signature, {signature, StartSignatureOf(plan.runtime, ToSet(plan.requiredRuntime))}, plan.required)
  }

  function OptionalContext(c: Compose, plan: Plan, e: OptionalEntry): Context {
    var signature := StartSignatureOf(c, e.services);
    Context(signature,
            {signature} + if e.isInit then {} else {StartSignatureOf(plan.runtime, {e.name})},
            e.services)
  }

  /** The required marker still speaks for this Compose file. */
  predicate RequiredFailureStands(c: Compose, plan: Plan, markers: map<MarkerKey, Marker>) {
    && RequiredMarker in markers
    && var m := markers[RequiredMarker];
       || (m.versionTwo && m.services != {} && m.signature == StartSignatureOf(c, m.services))
       || m.signature in RequiredContext(c, plan).accepted
  }

  /** A forced retry names no signature, or the one recorded. */
  predicate ForceApplies(force: Option<Option<StartSignature>>, m: Marker) {
    force.Some? && (force.value.None? || force.value.value == m.signature)
  }

  predicate Refused(c: Compose, plan: Plan, markers: map<MarkerKey, Marker>, force: Option<Option<StartSignature>>) {
    RequiredFailureStands(c, plan, markers) && !ForceApplies(force, markers[RequiredMarker])
  }

  // ---- Preparing and starting ------------------------------------------------

  /** How each external Compose command of one deployment ends: the one for the required services, and those for each optional entry. */
  datatype Outcomes = Outcomes(pull: (Option<Name>, set<Name>) -> bool, init: Name -> bool, start: (Option<Name>, set<Name>) -> bool)

  datatype Prepared = Prepared(c: Compose, plan: Plan, requiredContext: Context, optionalContexts: map<Name, Context>,
                               ready: set<Name>, failures: set<Name>)

  ghost predicate PreparedMeets(p: Prepared) {
    && p.c.Valid() && p.plan.completed <= InitNames(p.c)
    && PlanMeets(p.c, p.plan.completed, p.plan)
    && p.requiredContext == RequiredContext(p.c, p.plan)
    && p.optionalContexts.Keys == Names(p.plan)
    && p.ready !! p.failures && p.ready + p.failures == Names(p.plan)
    && ContextsAccept(p)
  }

  /** A marker written for an entry stands for that entry. */
  ghost predicate ContextsAccept(p: Prepared) {
    forall n :: n in p.optionalContexts ==> p.optionalContexts[n].signature in p.optionalContexts[n].accepted
  }

  /** The overall outcome, in terms of required services alone. */
  ghost predicate Succeeds(c: Compose, completed: set<Name>, completedAtStart: set<Name>, o: Outcomes) {
    && o.pull(None, RequiredServices(c, completed))
    && (forall n :: n in RequiredServices(c, completed) && c.defs[n].isInit ==> n in completedAtStart || o.init(n))
    && o.start(None, ToSet(RequiredRuntime(c)))
  }

  ghost predicate AgreeOnRequired(c: Compose, completed: set<Name>, o: Outcomes, p: Outcomes) {
    && o.pull(None, RequiredServices(c, completed)) == p.pull(None, RequiredServices(c, completed))
    && (forall n :: n in RequiredServices(c, completed) ==> o.init(n) == p.init(n))
    && o.start(None, ToSet(RequiredRuntime(c))) == p.start(None, ToSet(RequiredRuntime(c)))
  }

  /** So the overall outcome never depends on which optional entries the Compose file carries. */
  lemma OutcomeIgnoresOptional(c: Compose, completed: set<Name>, dropped: set<Name>, completedAtStart: set<Name>, o: Outcomes)
    requires c.Valid() && completed <= InitNames(c)
    requires dropped !! RequiredServices(c, completed)
    ensures Succeeds(Without(c, dropped), completed, completedAtStart, o) == Succeeds(c, completed, completedAtStart, o)
  {
    RequiredIgnoresOptional(c, completed, dropped);
    WithoutMeaning(c, dropped);
    var less := Without(c, dropped);
    SelectMembers(c.order, n => n !in dropped);
    SelectDistinct(c.order, n => n !in dropped);
    assert forall n :: n in c.defs <==> n in ToSet(c.order);
    assert less.Valid();
    RequiredRootsAre(c, completed);
    RequiredRootsAre(less, completed);
    ClosureHoldsRoots(c, RequiredRoots(c, completed), completed);
    assert ToSet(RequiredRuntime(less)) == ToSet(RequiredRuntime(c));
  }

  // ---- Failure markers of optional entries -------------------------------------

  type Markers = map<MarkerKey, Marker>

  /** The marker of an optional entry that still speaks for this context. */
  predicate Stands(markers: Markers, n: Name, context: Context) {
    OptionalMarker(n) in markers && markers[OptionalMarker(n)].signature in context.accepted
  }

  predicate HasMarker(markers: Markers, n: Name, context: Context) {
    OptionalMarker(n) in markers && markers[OptionalMarker(n)] == NewMarker(context)
  }

  predicate SameMarker(was: Markers, now: Markers, key: MarkerKey) {
    (key in was <==> key in now) && (key in was ==> was[key] == now[key])
  }

  /** No marker but those of `names` has changed. */
  ghost predicate OthersSame(was: Markers, now: Markers, names: set<Name>) {
    SameMarker(was, now, RequiredMarker) && forall n :: n !in names ==> SameMarker(was, now, OptionalMarker(n))
  }

  /** A new marker, unless the entry is ready or has one that stands. */
  predicate MarkedUnless(was: Markers, now: Markers, n: Name, context: Context, isReady: bool) {
    if isReady || Stands(was, n, context) then SameMarker(was, now, OptionalMarker(n)) else HasMarker(now, n, context)
  }

  predicate EntryReady(c: Compose, plan: Plan, was: Markers, ready: set<Name>, o: Outcomes, e: OptionalEntry) {
    && !Stands(was, e.name, OptionalContext(c, plan, e))
    && (e.isInit || e.initDependencies <= plan.requiredInit + ready)
    && o.pull(Some(e.name), e.services)
  }

  ghost predicate EntryPrepared(c: Compose, plan: Plan, was: Markers, now: Markers, o: Outcomes,
                                contexts: map<Name, Context>, ready: set<Name>, e: OptionalEntry) {
    && e.name in contexts && contexts[e.name] == OptionalContext(c, plan, e)
    && (e.name in ready <==> EntryReady(c, plan, was, ready, o, e))
    && MarkedUnless(was, now, e.name, contexts[e.name], e.name in ready)
  }

  ghost predicate EntriesPrepared(p: Prepared, was: Markers, now: Markers, o: Outcomes) {
    && (forall e :: e in p.plan.optional ==> EntryPrepared(p.c, p.plan, was, now, o, p.optionalContexts, p.ready, e))
    && OthersSame(was, now, Names(p.plan))
  }

  lemma PreparedIsSound(p: Prepared, was: Markers, now: Markers, o: Outcomes)
    requires EntriesPrepared(p, was, now, o)
    requires p.optionalContexts.Keys == Names(p.plan) && p.ready !! p.failures && p.ready + p.failures == Names(p.plan)
    ensures ContextsAccept(p) && FailuresStand(p, p.failures, now)
  {
    forall n | n in Names(p.plan)
      ensures p.optionalContexts[n].signature in p.optionalContexts[n].accepted
      ensures n in p.failures ==> Stands(now, n, p.optionalContexts[n])
    {
      var k :| 0 <= k < |p.plan.optional| && EntryNamesOf(p.plan.optional)[k] == n;
      assert EntryPrepared(p.c, p.plan, was, now, o, p.optionalContexts, p.ready, p.plan.optional[k]);
    }
  }

  /** Another entry does not disturb one that has been prepared. */
  lemma EntryStays(c: Compose, plan: Plan, was: Markers, before: Markers, now: Markers, o: Outcomes,
                   contexts: map<Name, Context>, contextsNow: map<Name, Context>, ready: set<Name>, readyNow: set<Name>,
                   e: OptionalEntry, other: Name)
    requires EntryPrepared(c, plan, was, before, o, contexts, ready, e) && OthersSame(before, now, {other}) && e.name != other
    requires e.name in contextsNow && contextsNow[e.name] == contexts[e.name]
    requires readyNow == ready || readyNow == ready + {other}
    requires e.isInit || other !in e.initDependencies
    ensures EntryPrepared(c, plan, was, now, o, contextsNow, readyNow, e)
  {
    assert SameMarker(before, now, OptionalMarker(e.name));
    assert e.initDependencies <= plan.requiredInit + readyNow && !e.isInit ==> e.initDependencies <= plan.requiredInit + ready;
  }

  lemma EntryAdded(c: Compose, plan: Plan, was: Markers, before: Markers, now: Markers, o: Outcomes,
                   contexts: map<Name, Context>, ready: set<Name>, readyNow: set<Name>, e: OptionalEntry)
    requires SameMarker(was, before, OptionalMarker(e.name)) && e.name !in ready
    requires e.name in contexts && contexts[e.name] == OptionalContext(c, plan, e)
    requires readyNow == if EntryReady(c, plan, before, ready, o, e) then ready + {e.name} else ready
    requires e.isInit || e.name !in e.initDependencies
    requires MarkedUnless(before, now, e.name, contexts[e.name], e.name in readyNow)
    ensures EntryPrepared(c, plan, was, now, o, contexts, readyNow, e)
  {
    assert e.initDependencies <= plan.requiredInit + readyNow && !e.isInit ==> e.initDependencies <= plan.requiredInit + ready;
  }

  // ---- What becomes of optional entries ---------------------------------------

  ghost predicate FailuresStand(p: Prepared, failures: set<Name>, markers: Markers) {
    forall n :: n in failures ==> n in p.optionalContexts && Stands(markers, n, p.optionalContexts[n])
  }

  /** Optional init services that this start leaves out. */
  ghost function Skipped(p: Prepared): set<Name> {
    set e | e in p.plan.optional && e.isInit && e.name !in p.ready :: e.name
  }

  /** Optional init services whose run fails. */
  ghost function InitFailures(p: Prepared, completed: set<Name>, o: Outcomes): set<Name> {
    set n | n in PendingInit(p.c, completed, Skipped(p)) && n !in p.plan.requiredInit && !o.init(n)
  }

  /** Optional runtime services that miss an init service. */
  ghost function Starved(p: Prepared, initFailed: set<Name>): set<Name> {
    set e | e in p.plan.optional && !e.isInit && e.initDependencies * (Skipped(p) + initFailed) != {} :: e.name
  }

  ghost function Startable(p: Prepared, initFailed: set<Name>): set<Name> {
    p.ready - Starved(p, initFailed)
  }

  ghost function FailedFirst(p: Prepared, initFailed: set<Name>): set<Name> {
    p.failures + initFailed + Starved(p, initFailed)
  }

  /** Who is reported failed once the required services run. */
  ghost predicate FailExactly(p: Prepared, initFailed: set<Name>, o: Outcomes, failures: set<Name>) {
    forall n :: n in failures <==>
      n in Names(p.plan) && FailsAtLast(p, Startable(p, initFailed), FailedFirst(p, initFailed), o, |p.plan.optional|, n)
  }

  ghost predicate Tried(p: Prepared, ready: set<Name>, k: nat)
    requires k < |p.plan.optional|
  {
    !p.plan.optional[k].isInit && p.plan.optional[k].name in ready
  }

  /** Start number `k` succeeds and brings up `n`. */
  ghost predicate Clears(p: Prepared, ready: set<Name>, o: Outcomes, k: nat, n: Name)
    requires k < |p.plan.optional|
  {
    Tried(p, ready, k) && o.start(Some(p.plan.optional[k].name), {p.plan.optional[k].name}) && n in p.plan.optional[k].services
  }

  /** Start number `k` is that of `n`, and fails. */
  ghost predicate Breaks(p: Prepared, ready: set<Name>, o: Outcomes, k: nat, n: Name)
    requires k < |p.plan.optional|
  {
    Tried(p, ready, k) && !o.start(Some(p.plan.optional[k].name), {p.plan.optional[k].name}) && n == p.plan.optional[k].name
  }

  /** Among the first `upto` starts, a failure of `n` comes after every success that brings it up. */
  ghost predicate FailsAtLast(p: Prepared, ready: set<Name>, failed: set<Name>, o: Outcomes, upto: nat, n: Name)
    requires upto <= |p.plan.optional|
  {
    || (n in failed && forall k :: 0 <= k < upto ==> !Clears(p, ready, o, k, n))
    || (exists k :: 0 <= k < upto && Breaks(p, ready, o, k, n) && forall j :: k < j < upto ==> !Clears(p, ready, o, j, n))
  }

  lemma OneMoreStart(p: Prepared, ready: set<Name>, failed: set<Name>, o: Outcomes, i: nat, n: Name)
    requires i < |p.plan.optional|
    ensures FailsAtLast(p, ready, failed, o, i + 1, n) <==>
            !Clears(p, ready, o, i, n) && (Breaks(p, ready, o, i, n) || FailsAtLast(p, ready, failed, o, i, n))
  {
  }

  /** A remaining marker belongs to a failure, or to a service whose start is still to come. */
  ghost predicate Explained(p: Prepared, ready: set<Name>, failures: set<Name>, markers: Markers, from: nat) {
    forall n :: n in Names(p.plan) && OptionalMarker(n) in markers ==>
      n in failures || exists k :: from <= k < |p.plan.optional| && p.plan.optional[k].name == n && Tried(p, ready, k)
  }

  /** An init entry that was ready and did not fail has no marker. */
  ghost predicate RanIsClear(p: Prepared, failures: set<Name>, markers: Markers) {
    forall e :: e in p.plan.optional && e.isInit && e.name in p.ready && e.name !in failures ==> OptionalMarker(e.name) !in markers
  }

  lemma MarkersAreExplained(p: Prepared, ready: set<Name>, failures: set<Name>, markers: Markers)
    requires p.ready + p.failures == Names(p.plan) && p.failures <= failures && p.ready - failures <= ready
    requires RanIsClear(p, failures, markers)
    ensures Explained(p, ready, failures, markers, 0)
  {
    forall n | n in Names(p.plan) && OptionalMarker(n) in markers && n !in failures
      ensures exists k :: 0 <= k < |p.plan.optional| && p.plan.optional[k].name == n && Tried(p, ready, k)
    {
      var k :| 0 <= k < |p.plan.optional| && EntryNamesOf(p.plan.optional)[k] == n;
      assert p.plan.optional[k] in p.plan.optional && Tried(p, ready, k);
    }
  }

  /** What start number `i` changes. */
  ghost predicate Moves(p: Prepared, ready: set<Name>, o: Outcomes, i: nat, was: Markers, now: Markers, failed: set<Name>, failures: set<Name>)
    requires i < |p.plan.optional| && p.optionalContexts.Keys == Names(p.plan)
  {
    && failures <= Names(p.plan) && OthersSame(was, now, Names(p.plan))
    && forall n :: n in Names(p.plan) ==>
         if Clears(p, ready, o, i, n) then n !in failures && OptionalMarker(n) !in now
         else if Breaks(p, ready, o, i, n) then n in failures && HasMarker(now, n, p.optionalContexts[n])
         else (n in failures <==> n in failed) && SameMarker(was, now, OptionalMarker(n))
  }

  lemma MoveKeeps(p: Prepared, ready: set<Name>, o: Outcomes, i: nat, was: Markers, now: Markers, failed: set<Name>, failures: set<Name>)
    requires i < |p.plan.optional| && p.optionalContexts.Keys == Names(p.plan) && ContextsAccept(p)
    requires Moves(p, ready, o, i, was, now, failed, failures)
    requires p.plan.optional[i].name in p.plan.optional[i].services
    requires FailuresStand(p, failed, was) && Explained(p, ready, failed, was, i)
    ensures FailuresStand(p, failures, now) && Explained(p, ready, failures, now, i + 1)
  {
    forall n | n in failures
      ensures n in p.optionalContexts && Stands(now, n, p.optionalContexts[n])
    {
      assert n in Names(p.plan);
    }
    forall n | n in Names(p.plan) && OptionalMarker(n) in now && n !in failures
      ensures exists k :: i + 1 <= k < |p.plan.optional| && p.plan.optional[k].name == n && Tried(p, ready, k)
    {
      assert !Clears(p, ready, o, i, n) && !Breaks(p, ready, o, i, n);
      assert !(p.plan.optional[i].name == n && Tried(p, ready, i));
    }
  }

  class AppProject {
    const runner: InitRunner
    var markers: map<MarkerKey, Marker>

    constructor (runner: InitRunner, markers: map<MarkerKey, Marker>)
      ensures this.runner == runner && this.markers == markers
    {
      this.runner, this.markers := runner, markers;
    }

    method Prepare(c: Compose, primary: Name, force: Option<Option<StartSignature>>, o: Outcomes)
      returns (prepared: Option<Prepared>, ghost plan: Option<Plan>)
      requires c.Valid()
      modifies this
      ensures plan.Some? <==> IsRequiredRuntime(c, primary)
      ensures plan.Some? ==> PlanMeets(c, CompletedInit(c, runner.signatures), plan.value)
      ensures prepared.Some? <==>
        plan.Some? && !Refused(c, plan.value, old(markers), force) && o.pull(None, plan.value.required)
      ensures prepared.Some? ==> prepared.value.c == c && prepared.value.plan == plan.value && PreparedMeets(prepared.value)
      ensures prepared.Some? ==> FailuresStand(prepared.value, prepared.value.failures, markers)
      ensures prepared.Some? ==> EntriesPrepared(prepared.value, if RequiredFailureStands(c, plan.value, old(markers)) then map[] else old(markers), markers, o)
      ensures plan.Some? && !Refused(c, plan.value, old(markers), force) && prepared.None?
        ==> RequiredMarker in markers && markers[RequiredMarker] == NewMarker(RequiredContext(c, plan.value))
      ensures plan.None? || Refused(c, plan.value, old(markers), force) ==> markers == old(markers)
    {
      var completed := CompletedInit(c, runner.signatures);
      var planned := AppProjectPlan(c, completed, primary);
      plan := planned;
      if planned.None? {
        return None, plan;
      }
      var p := planned.value;
      if RequiredFailureStands(c, p, markers) {
        if !ForceApplies(force, markers[RequiredMarker]) {
          return None, plan;
        }
        markers := map[];
      }
      var context := RequiredContext(c, p);
      if !o.pull(None, p.required) {
        markers := markers[RequiredMarker := NewMarker(context)];
        return None, plan;
      }
      PlanPartitions(c, completed, p);
      PlanIsOrdered(c, completed, p);
      ghost var was := markers;
      var contexts, ready, failures := PrepareOptional(c, p, o);
      prepared := Some(Prepared(c, p, context, contexts, ready, failures));
      PreparedIsSound(prepared.value, was, markers, o);
    }

    /** The optional part of `Prepare`: every entry gets a context, and ends ready or failed. */
    method PrepareOptional(c: Compose, plan: Plan, o: Outcomes)
      returns (contexts: map<Name, Context>, ready: set<Name>, failures: set<Name>)
      requires Distinct(EntryNamesOf(plan.optional)) && DependenciesListedFirst(plan)
      modifies this
      ensures contexts.Keys == Names(plan) && ready !! failures && ready + failures == Names(plan)
      ensures forall e :: e in plan.optional ==> EntryPrepared(c, plan, old(markers), markers, o, contexts, ready, e)
      ensures OthersSame(old(markers), markers, Names(plan))
    {
      contexts, ready, failures := map[], {}, {};
      var names := EntryNamesOf(plan.optional);
      for i := 0 to |plan.optional|
        invariant contexts.Keys == ToSet(names[..i]) && ready !! failures && ready + failures == ToSet(names[..i])
        invariant forall k :: 0 <= k < i ==> EntryPrepared(c, plan, old(markers), markers, o, contexts, ready, plan.optional[k])
        invariant OthersSame(old(markers), markers, ToSet(names[..i]))
      {
        var e := plan.optional[i];
        assert names[..i + 1] == names[..i] + [e.name];
        assert e.name !in names[..i];
        ghost var was, contextsBefore, readyBefore := markers, contexts, ready;
        contexts := contexts[e.name := OptionalContext(c, plan, e)];
        var isReady := PrepareEntry(c, plan, e, ready, o);
        if isReady {
          ready := ready + {e.name};
        } else {
          failures := failures + {e.name};
        }
        forall k | 0 <= k < i
          ensures EntryPrepared(c, plan, old(markers), markers, o, contexts, ready, plan.optional[k])
        {
          assert names[k] != e.name;
          EntryStays(c, plan, old(markers), was, markers, o, contextsBefore, contexts, readyBefore, ready, plan.optional[k], e.name);
        }
        EntryAdded(c, plan, old(markers), was, markers, o, contexts, readyBefore, ready, e);
      }
      assert names[..|names|] == names;
    }

    /** One entry: a failure that stands, an init service that is missing or a failed pull rules it out. */
    method PrepareEntry(c: Compose, plan: Plan, e: OptionalEntry, ready: set<Name>, o: Outcomes) returns (isReady: bool)
      modifies this
      ensures isReady <==> EntryReady(c, plan, old(markers), ready, o, e)
      ensures MarkedUnless(old(markers), markers, e.name, OptionalContext(c, plan, e), isReady)
      ensures OthersSame(old(markers), markers, {e.name})
    {
      var context := OptionalContext(c, plan, e);
      if Stands(markers, e.name, context) {
        return false;
      }
      isReady := (e.isInit || e.initDependencies <= plan.requiredInit + ready) && o.pull(Some(e.name), e.services);
      if !isReady {
        markers := markers[OptionalMarker(e.name) := NewMarker(context)];
      }
    }

    /**
      Starts a prepared project. When that succeeds, the optional services reported as
      failed are exactly those whose failure marker remains.
    */
    method Start(p: Prepared, o: Outcomes) returns (ok: bool, failures: set<Name>)
      requires PreparedMeets(p) && FailuresStand(p, p.failures, markers)
      requires p.plan.completed <= CompletedInit(p.c, runner.signatures)
      modifies this, runner
      ensures ok <==>
        && (forall n :: n in p.plan.requiredInit ==> n in CompletedInit(p.c, old(runner.signatures)) || o.init(n))
        && o.start(None, ToSet(p.plan.requiredRuntime))
      ensures failures <= Names(p.plan) && FailuresStand(p, failures, markers)
      ensures ok ==> RequiredMarker !in markers
      ensures !ok ==> RequiredMarker in markers && markers[RequiredMarker] == NewMarker(p.requiredContext)
      ensures ok ==> forall n :: n in Names(p.plan) ==> (n in failures <==> OptionalMarker(n) in markers)
      ensures ok ==> FailExactly(p, InitFailures(p, CompletedInit(p.c, old(runner.signatures)), o), o, failures)
    {
      var skipped, initFailed;
      ok, skipped, initFailed := RunInits(p, o);
      failures := ReportInits(p, initFailed);
      if ok {
        ok, failures := StartRuntime(p, skipped, initFailed, failures, o);
      } else {
        MarkRequired(p);
      }
    }

    /** The required marker is written whenever a required service has failed. */
    method MarkRequired(p: Prepared)
      modifies this
      ensures markers == old(markers)[RequiredMarker := NewMarker(p.requiredContext)]
      ensures forall failures :: FailuresStand(p, failures, old(markers)) ==> FailuresStand(p, failures, markers)
    {
      markers := markers[RequiredMarker := NewMarker(p.requiredContext)];
    }

    method ClearRequired(p: Prepared)
      modifies this
      ensures markers == old(markers) - {RequiredMarker}
      ensures forall failures :: FailuresStand(p, failures, old(markers)) ==> FailuresStand(p, failures, markers)
    {
      markers := markers - {RequiredMarker};
    }

    /** The required runtime services, then the optional ones that can start. */
    method StartRuntime(p: Prepared, skipped: set<Name>, initFailed: set<Name>, failed: set<Name>, o: Outcomes)
      returns (ok: bool, failures: set<Name>)
      requires PreparedMeets(p) && skipped == Skipped(p)
      requires failed == p.failures + initFailed <= Names(p.plan) && FailuresStand(p, failed, markers) && RanIsClear(p, failed, markers)
      modifies this
      ensures ok <==> o.start(None, ToSet(p.plan.requiredRuntime))
      ensures failures <= Names(p.plan) && FailuresStand(p, failures, markers)
      ensures ok ==> RequiredMarker !in markers
      ensures !ok ==> RequiredMarker in markers && markers[RequiredMarker] == NewMarker(p.requiredContext)
      ensures ok ==> forall n :: n in Names(p.plan) ==> (n in failures <==> OptionalMarker(n) in markers)
      ensures ok ==> FailExactly(p, initFailed, o, failures)
    {
      var starved;
      starved, failures := ReportStarved(p, skipped, initFailed, failed);
      ok := o.start(None, ToSet(p.plan.requiredRuntime));
      if ok {
        ClearRequired(p);
        failures := StartOptional(p, p.ready - starved, failures, o);
      } else {
        MarkRequired(p);
      }
    }

    /** Marks the init services that failed and clears those that ran. */
    method ReportInits(p: Prepared, initFailed: set<Name>) returns (failures: set<Name>)
      requires PreparedMeets(p) && FailuresStand(p, p.failures, markers) && initFailed <= Names(p.plan)
      modifies this
      ensures failures == p.failures + initFailed && FailuresStand(p, failures, markers)
      ensures RanIsClear(p, failures, markers)
    {
      failures := p.failures + initFailed;
      MarkFailed(p, initFailed);
      ClearRanInit(p, initFailed);
    }

    /** Marks the runtime services that miss an init service. */
    method ReportStarved(p: Prepared, skipped: set<Name>, initFailed: set<Name>, failed: set<Name>)
      returns (starved: set<Name>, failures: set<Name>)
      requires PreparedMeets(p) && skipped == Skipped(p)
      requires p.failures + initFailed <= failed <= Names(p.plan) && FailuresStand(p, failed, markers) && RanIsClear(p, failed, markers)
      modifies this
      ensures starved == Starved(p, initFailed) && failures == failed + starved <= Names(p.plan)
      ensures FailuresStand(p, failures, markers) && Explained(p, p.ready - starved, failures, markers, 0)
    {
      starved := set e | e in p.plan.optional && !e.isInit && e.initDependencies * (skipped + initFailed) != {} :: e.name;
      PlanIsOrdered(p.c, p.plan.completed, p.plan);
      failures := failed + starved;
      MarkFailed(p, starved);
      MarkersAreExplained(p, p.ready - starved, failures, markers);
    }

    /** The init services of a prepared project, without the optional ones that are not ready. */
    method RunInits(p: Prepared, o: Outcomes) returns (ok: bool, skipped: set<Name>, failed: set<Name>)
      requires PreparedMeets(p)
      requires p.plan.completed <= CompletedInit(p.c, runner.signatures)
      modifies runner
      ensures ok <==> forall n :: n in p.plan.requiredInit ==> n in CompletedInit(p.c, old(runner.signatures)) || o.init(n)
      ensures skipped == Skipped(p) && failed <= Names(p.plan)
      ensures ok ==> failed == InitFailures(p, CompletedInit(p.c, old(runner.signatures)), o)
    {
      PlanPartitions(p.c, p.plan.completed, p.plan);
      skipped := set e | e in p.plan.optional && e.isInit && e.name !in p.ready :: e.name;
      ghost var order, done, made;
      ghost var completed := CompletedInit(p.c, runner.signatures);
      var blocker;
      ok, failed, blocker, order, done, made := runner.Run(p.c, skipped, p.plan.requiredInit, o.init);
      PendingSplits(p, completed, skipped);
      assert forall n :: n in order <==> n in ToSet(order);
      assert failed <= Names(p.plan) by {
        assert forall n :: n in failed ==> n in order;
      }
      assert ok ==> order[..done] == order;
    }

    method MarkFailed(p: Prepared, names: set<Name>)
      requires names <= p.optionalContexts.Keys
      modifies this
      ensures forall n :: n in names ==> HasMarker(markers, n, p.optionalContexts[n])
      ensures OthersSame(old(markers), markers, names)
    {
      markers := markers + map n | n in names :: OptionalMarker(n) := NewMarker(p.optionalContexts[n]);
    }

    /** An init entry that was ready and did not fail loses its marker. */
    method ClearRanInit(p: Prepared, failed: set<Name>)
      modifies this
      ensures forall e :: e in p.plan.optional && e.isInit && e.name in p.ready && e.name !in failed
                ==> OptionalMarker(e.name) !in markers
      ensures OthersSame(old(markers), markers, p.ready - failed)
    {
      markers := markers - set e | e in p.plan.optional && e.isInit && e.name in p.ready && e.name !in failed
                              :: OptionalMarker(e.name);
    }

    /** Starts the optional runtime services one by one; a success clears the failures of what it pulled in. */
    method StartOptional(p: Prepared, ready: set<Name>, failed: set<Name>, o: Outcomes) returns (failures: set<Name>)
      requires PreparedMeets(p) && failed <= Names(p.plan)
      requires FailuresStand(p, failed, markers) && Explained(p, ready, failed, markers, 0)
      modifies this
      ensures forall n :: n in failures <==> n in Names(p.plan) && FailsAtLast(p, ready, failed, o, |p.plan.optional|, n)
      ensures FailuresStand(p, failures, markers)
      ensures forall n :: n in Names(p.plan) ==> (n in failures <==> OptionalMarker(n) in markers)
      ensures OthersSame(old(markers), markers, Names(p.plan))
    {
      failures := failed;
      PlanIsOrdered(p.c, p.plan.completed, p.plan);
      for i := 0 to |p.plan.optional|
        invariant FailuresStand(p, failures, markers) && Explained(p, ready, failures, markers, i)
        invariant forall n :: n in failures <==> n in Names(p.plan) && FailsAtLast(p, ready, failed, o, i, n)
        invariant OthersSame(old(markers), markers, Names(p.plan))
      {
        ghost var was, failedBefore := markers, failures;
        failures := TryStart(p, ready, failures, i, o);
        MoveKeeps(p, ready, o, i, was, markers, failedBefore, failures);
        forall n
          ensures n in failures <==> n in Names(p.plan) && FailsAtLast(p, ready, failed, o, i + 1, n)
        {
          OneMoreStart(p, ready, failed, o, i, n);
        }
      }
    }

    method TryStart(p: Prepared, ready: set<Name>, failed: set<Name>, i: nat, o: Outcomes) returns (failures: set<Name>)
      requires i < |p.plan.optional| && p.optionalContexts.Keys == Names(p.plan) && failed <= Names(p.plan)
      requires p.plan.optional[i].name in Names(p.plan) && p.plan.optional[i].name in p.plan.optional[i].services
      modifies this
      ensures Moves(p, ready, o, i, old(markers), markers, failed, failures)
    {
      var e := p.plan.optional[i];
      failures := failed;
      if !e.isInit && e.name in ready {
        if o.start(Some(e.name), {e.name}) {
          var cleared := e.services * p.optionalContexts.Keys;
          markers := markers - set n | n in cleared :: OptionalMarker(n);
          failures := failures - cleared;
        } else {
          failures := failures + {e.name};
          markers := markers[OptionalMarker(e.name) := NewMarker(p.optionalContexts[e.name])];
        }
      }
    }

    /** Prepare, then start. */
    method Deploy(c: Compose, primary: Name, force: Option<Option<StartSignature>>, o: Outcomes)
      returns (ok: bool, failures: set<Name>, ghost plan: Option<Plan>)
      requires c.Valid()
      modifies this, runner
      ensures plan.Some? <==> IsRequiredRuntime(c, primary)
      ensures plan.Some? ==> PlanMeets(c, CompletedInit(c, old(runner.signatures)), plan.value)
      ensures ok <==>
        && plan.Some? && !Refused(c, plan.value, old(markers), force)
        && Succeeds(c, CompletedInit(c, old(runner.signatures)), CompletedInit(c, old(runner.signatures)), o)
      ensures ok ==> RequiredMarker !in markers
      ensures ok ==> forall n :: n in Names(plan.value) ==> (n in failures <==> OptionalMarker(n) in markers)
      ensures !ok && plan.Some? && !Refused(c, plan.value, old(markers), force)
        ==> RequiredMarker in markers && markers[RequiredMarker] == NewMarker(RequiredContext(c, plan.value))
      ensures plan.None? || Refused(c, plan.value, old(markers), force)
        ==> markers == old(markers) && runner.runs == old(runner.runs) && runner.signatures == old(runner.signatures)
    {
      var prepared;
      prepared, plan := Prepare(c, primary, force, o);
      if prepared.None? {
        return false, {}, plan;
      }
      ok, failures := Start(prepared.value, o);
    }
  }

  /** Which pending init services can block a start: exactly the required ones. */
  lemma PendingSplits(p: Prepared, completed: set<Name>, skipped: set<Name>)
    requires PreparedMeets(p)
    requires p.plan.completed <= completed
    requires skipped == set e | e in p.plan.optional && e.isInit && e.name !in p.ready :: e.name
    ensures forall n :: n in PendingInit(p.c, completed, skipped) ==>
      (Tolerated(p.c, p.plan.requiredInit, n) <==> n !in p.plan.requiredInit)
    ensures forall n :: n in p.plan.requiredInit && n !in completed ==> n in PendingInit(p.c, completed, skipped)
    ensures forall n :: n in PendingInit(p.c, completed, skipped) && n !in p.plan.requiredInit ==> n in Names(p.plan)
  {
    PlanPartitions(p.c, p.plan.completed, p.plan);
    assert forall i :: 0 <= i < |p.plan.optional| ==> EntryNamesOf(p.plan.optional)[i] in Names(p.plan);
    RequiredRootsAre(p.c, p.plan.completed);
    ClosureHoldsRoots(p.c, RequiredRoots(p.c, p.plan.completed), p.plan.completed);
  }

  /**
    Two runs of the commands that agree on the required services succeed or
    fail together, from projects with the same recorded state.
   */
  method DeployBoth(a: AppProject, b: AppProject, c: Compose, primary: Name, force: Option<Option<StartSignature>>,
                    oa: Outcomes, ob: Outcomes)
    returns (okA: bool, okB: bool)
    requires c.Valid() && a != b && a.runner != b.runner
    requires a.runner.signatures == b.runner.signatures
    requires RequiredMarker in a.markers <==> RequiredMarker in b.markers
    requires RequiredMarker in a.markers ==> a.markers[RequiredMarker] == b.markers[RequiredMarker]
    requires AgreeOnRequired(c, CompletedInit(c, a.runner.signatures), oa, ob)
    modifies a, b, a.runner, b.runner
    ensures okA == okB
  {
    var failuresA, failuresB;
    ghost var planA, planB;
    okA, failuresA, planA := a.Deploy(c, primary, force, oa);
    okB, failuresB, planB := b.Deploy(c, primary, force, ob);
  }

  /**
    A failed start is sticky: the same Compose file is refused again without
    running anything, even when some init services completed in between.
   */
  method DeployAgain(a: AppProject, c: Compose, primary: Name, o: Outcomes, later: Outcomes) returns (first: bool, second: bool)
    requires c.Valid()
    modifies a, a.runner
    ensures !first ==> !second
    ensures second ==> RequiredMarker !in a.markers
  {
    var failures;
    ghost var plan, planLater;
    first, failures, plan := a.Deploy(c, primary, None, o);
    ghost var runs := a.runner.runs;
    if plan.Some? {
      RequiredNotEmpty(c, CompletedInit(c, old(a.runner.signatures)), primary);
    }
    second, failures, planLater := a.Deploy(c, primary, None, later);
    assert !first ==> a.runner.runs == runs;
  }

  lemma RequiredNotEmpty(c: Compose, completed: set<Name>, primary: Name)
    requires c.Valid() && completed <= InitNames(c) && IsRequiredRuntime(c, primary)
    ensures primary in RequiredServices(c, completed)
  {
    RequiredRootsAre(c, completed);
    ClosureHoldsRoots(c, RequiredRoots(c, completed), completed);
  }
}
