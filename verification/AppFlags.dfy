/**
  Plans and deployments in terms of what a Compose file says of its services: their
  flags, their dependencies, and the chains of these.
 */
module AppFlags {
  import opened Sequences
  import opened Services
  import opened InitServices
  import opened AppPlan
  import opened AppProject

  // ---- Which services are required -----------------------------------------------------------

  /** The service names `d` under `depends_on`, in a list or as a key. */
  predicate NamesDependency(s: Service, d: Name) {
    match s.dependsOn
    case Absent => false
    case Listed(names) => d in names
    case Conditioned(entries) => exists i :: 0 <= i < |entries| && entries[i].0 == d
  }

  lemma NamesAreDependencies(s: Service, d: Name)
    ensures NamesDependency(s, d) <==> d in Dependencies(s)
  {
    if s.dependsOn.Conditioned? {
      var entries := s.dependsOn.entries;
      if i :| 0 <= i < |entries| && entries[i].0 == d {
        assert EntryNames(entries)[i] == d;
      }
    }
  }

  /** A chain of services that are there and not among `completed`, each naming the next. */
  ghost predicate NamedChain(c: Compose, completed: set<Name>, path: seq<Name>) {
    && path != []
    && (forall i :: 0 <= i < |path| ==> path[i] in c.defs && path[i] !in completed)
    && (forall i :: 0 <= i < |path| - 1 ==> NamesDependency(c.defs[path[i]], path[i + 1]))
  }

  lemma NamedChainIsChain(c: Compose, completed: set<Name>, path: seq<Name>)
    ensures NamedChain(c, completed, path) <==> Chain(c, completed, path)
  {
    if path != [] && forall i :: 0 <= i < |path| ==> path[i] in c.defs {
      forall i | 0 <= i < |path| - 1
        ensures NamesDependency(c.defs[path[i]], path[i + 1]) <==> path[i + 1] in Dependencies(c.defs[path[i]])
      {
        NamesAreDependencies(c.defs[path[i]], path[i + 1]);
      }
    }
  }

  /** A chain leads from a service that is not optional to this one. */
  ghost predicate Needed(c: Compose, completed: set<Name>, n: Name) {
    exists path :: NamedChain(c, completed, path) && path[|path| - 1] == n && !c.defs[path[0]].optional
  }

  /** The required services are exactly those that a chain reaches from a service that is not optional. */
  lemma RequiredIffNeeded(c: Compose, completed: set<Name>, n: Name)
    requires c.Valid() && completed <= InitNames(c)
    ensures n in RequiredServices(c, completed) <==> Needed(c, completed, n)
  {
    var roots := RequiredRoots(c, completed);
    RequiredRootsAre(c, completed);
    if n in RequiredServices(c, completed) {
      var path :| ChainBetween(c, completed, roots, n, path);
      NamedChainIsChain(c, completed, path);
    }
    if Needed(c, completed, n) {
      var path :| NamedChain(c, completed, path) && path[|path| - 1] == n && !c.defs[path[0]].optional;
      NamedChainIsChain(c, completed, path);
      assert path[0] in roots;
      assert ChainBetween(c, completed, roots, n, path);
    }
  }

  /**
    A plan by flags: the required runtime services are those neither `init` nor optional;
    an entry is made for exactly each optional service that is neither completed nor
    required; it brings up what chains reach from it, and waits for the init services
    among these.
  */
  lemma PlanByFlags(c: Compose, completed: set<Name>, plan: Plan, n: Name)
    requires c.Valid() && completed <= InitNames(c) && PlanMeets(c, completed, plan)
    ensures n in plan.requiredRuntime <==> n in c.defs && !c.defs[n].isInit && !c.defs[n].optional
    ensures n in plan.required <==> Needed(c, completed, n)
    ensures n in plan.requiredInit <==> Needed(c, completed, n) && c.defs[n].isInit
    ensures n in Names(plan) <==> n in c.defs && c.defs[n].optional && n !in completed && !Needed(c, completed, n)
  {
    RequiredRootsAre(c, completed);
    RequiredIffNeeded(c, completed, n);
    OptionalNamesAre(c, completed, plan.required, true);
    OptionalNamesAre(c, completed, plan.required, false);
    var inits, runtimes := OptionalNames(c, completed, plan.required, true), OptionalNames(c, completed, plan.required, false);
    assert n in inits + runtimes <==> n in inits || n in runtimes;
  }

  lemma EntryByFlags(c: Compose, completed: set<Name>, plan: Plan, e: OptionalEntry, n: Name)
    requires c.Valid() && completed <= InitNames(c) && PlanMeets(c, completed, plan) && e in plan.optional
    ensures e.name in c.defs && e.isInit == c.defs[e.name].isInit
    ensures n in e.services <==> exists path :: NamedChain(c, completed, path) && path[0] == e.name && path[|path| - 1] == n
    ensures n in e.initDependencies <==> n in e.services && n != e.name && c.defs[n].isInit
  {
    assert EntryMeets(c, completed, e);
    if n in e.services {
      var path :| ChainBetween(c, completed, [e.name], n, path);
      NamedChainIsChain(c, completed, path);
    }
    if path :| NamedChain(c, completed, path) && path[0] == e.name && path[|path| - 1] == n {
      NamedChainIsChain(c, completed, path);
      assert ChainBetween(c, completed, [e.name], n, path);
    }
  }

  // ---- When a deployment succeeds ----------------------------------------------------------------

  /**
    The pull of all needed services works, each init service among them is completed or
    ends well, and the runtime services that are not optional start.
  */
  ghost predicate RequiredGoWell(c: Compose, completed: set<Name>, o: Outcomes) {
    && o.pull(None, set n | n in c.defs && Needed(c, completed, n))
    && (forall n :: n in c.defs && c.defs[n].isInit && Needed(c, completed, n) ==> o.init(n))
    && o.start(None, set n | n in c.defs && !c.defs[n].isInit && !c.defs[n].optional)
  }

  lemma SucceedsIffRequiredGoWell(c: Compose, completed: set<Name>, o: Outcomes)
    requires c.Valid() && completed <= InitNames(c)
    ensures Succeeds(c, completed, completed, o) <==> RequiredGoWell(c, completed, o)
  {
    RequiredRootsAre(c, completed);
    forall n
      ensures n in RequiredServices(c, completed) <==> n in c.defs && Needed(c, completed, n)
    {
      RequiredIffNeeded(c, completed, n);
    }
    assert RequiredServices(c, completed) == set n | n in c.defs && Needed(c, completed, n);
    assert ToSet(RequiredRuntime(c)) == set n | n in c.defs && !c.defs[n].isInit && !c.defs[n].optional;
    assert forall n :: Needed(c, completed, n) ==> n !in completed;
  }

  /** The init services that count as completed: recorded with the fingerprint of their definition. */
  lemma CompletedByRecord(c: Compose, signatures: map<Name, InitSignature>, n: Name)
    ensures n in CompletedInit(c, signatures) <==>
            && n in c.defs && c.defs[n].isInit && n in signatures
            && signatures[n].service == n && signatures[n].definition == DefinitionOf(c.defs[n])
  {
  }

  // ---- When a failure stands -----------------------------------------------------------------------

  /** The start of these services of these definitions. */
  ghost predicate IsStartOf(sig: StartSignature, c: Compose, services: set<Name>) {
    && sig.services == services && sig.definitions.Keys == c.defs.Keys
    && forall n :: n in c.defs ==> sig.definitions[n] == DefinitionOf(c.defs[n])
  }

  lemma StartSignatureTells(sig: StartSignature, c: Compose, services: set<Name>)
    ensures sig == StartSignatureOf(c, services) <==> IsStartOf(sig, c, services)
  {
  }

  /**
    A required failure stands for the same definitions: of the services that a new marker
    names, of the required ones, or, as old markers have it, of the runtime part alone.
  */
  lemma RequiredFailureByFacts(c: Compose, plan: Plan, markers: map<MarkerKey, Marker>)
    ensures RequiredFailureStands(c, plan, markers) <==>
            && RequiredMarker in markers
            && var m := markers[RequiredMarker];
               || (m.versionTwo && m.services != {} && IsStartOf(m.signature, c, m.services))
               || IsStartOf(m.signature, c, plan.required)
               || IsStartOf(m.signature, plan.runtime, ToSet(plan.requiredRuntime))
  {
    if RequiredMarker in markers {
      var m := markers[RequiredMarker];
      StartSignatureTells(m.signature, c, m.services);
      StartSignatureTells(m.signature, c, plan.required);
      StartSignatureTells(m.signature, plan.runtime, ToSet(plan.requiredRuntime));
    }
  }

  /** A prepared start is refused for a standing failure, unless it is forced: for any failure, or for the one of this very signature. */
  lemma RefusedByFacts(c: Compose, plan: Plan, markers: map<MarkerKey, Marker>, force: Option<Option<StartSignature>>)
    ensures Refused(c, plan, markers, force) <==>
            && RequiredFailureStands(c, plan, markers)
            && force != Some(None) && force != Some(Some(markers[RequiredMarker].signature))
  {
  }

  /** A failure of an optional entry stands for the same definitions of its services, or, for a runtime service, of the runtime part. */
  ghost predicate OptionalFailureStands(c: Compose, plan: Plan, markers: map<MarkerKey, Marker>, e: OptionalEntry) {
    && OptionalMarker(e.name) in markers
    && var sig := markers[OptionalMarker(e.name)].signature;
       IsStartOf(sig, c, e.services) || (!e.isInit && IsStartOf(sig, plan.runtime, {e.name}))
  }

  lemma StandsByFacts(c: Compose, plan: Plan, markers: map<MarkerKey, Marker>, e: OptionalEntry)
    ensures Stands(markers, e.name, OptionalContext(c, plan, e)) <==> OptionalFailureStands(c, plan, markers, e)
  {
    if OptionalMarker(e.name) in markers {
      var sig := markers[OptionalMarker(e.name)].signature;
      StartSignatureTells(sig, c, e.services);
      StartSignatureTells(sig, plan.runtime, {e.name});
    }
  }

  /**
    Of a prepared project, an optional entry is ready exactly if no failure of it stands,
    its own pull works, and, for a runtime service, every init service it needs is
    required or ready itself.
  */
  lemma ReadyByFacts(p: Prepared, was: Markers, now: Markers, o: Outcomes, e: OptionalEntry)
    requires EntriesPrepared(p, was, now, o) && e in p.plan.optional
    ensures e.name in p.ready <==>
            && !OptionalFailureStands(p.c, p.plan, was, e)
            && o.pull(Some(e.name), e.services)
            && (e.isInit || forall d :: d in e.initDependencies ==> d in p.plan.requiredInit || d in p.ready)
    ensures e.name !in p.ready ==> OptionalMarker(e.name) in now
  {
    assert EntryPrepared(p.c, p.plan, was, now, o, p.optionalContexts, p.ready, e);
    StandsByFacts(p.c, p.plan, was, e);
  }

  // ---- Which optional services fail ---------------------------------------------------------------------

  /** An optional init service of the plan that was left out, or was due and failed. */
  ghost predicate InitMissed(p: Prepared, completed: set<Name>, o: Outcomes, d: Name) {
    exists e :: e in p.plan.optional && e.isInit && e.name == d
                && (d !in p.ready || (d !in completed && d !in p.plan.requiredInit && !o.init(d)))
  }

  /** A runtime service that needs such an init service. */
  ghost predicate Misses(p: Prepared, completed: set<Name>, o: Outcomes, e: OptionalEntry) {
    !e.isInit && exists d :: d in e.initDependencies && InitMissed(p, completed, o, d)
  }

  /** Failed before any optional service is started. */
  ghost predicate FailedBefore(p: Prepared, completed: set<Name>, o: Outcomes, n: Name) {
    || n !in p.ready
    || InitMissed(p, completed, o, n)
    || (exists e :: e in p.plan.optional && e.name == n && Misses(p, completed, o, e))
  }

  /** The start of this entry is tried, alone, and ends like this. */
  ghost predicate StartEnds(p: Prepared, completed: set<Name>, o: Outcomes, k: nat, well: bool)
    requires k < |p.plan.optional|
  {
    var e := p.plan.optional[k];
    && !e.isInit && e.name in p.ready && !Misses(p, completed, o, e)
    && o.start(Some(e.name), {e.name}) == well
  }

  /** A start that ends well brings this service up. */
  ghost predicate BroughtUp(p: Prepared, completed: set<Name>, o: Outcomes, k: nat, n: Name)
    requires k < |p.plan.optional|
  {
    StartEnds(p, completed, o, k, true) && n in p.plan.optional[k].services
  }

  ghost predicate FailsLastly(p: Prepared, completed: set<Name>, o: Outcomes, n: Name) {
    || (FailedBefore(p, completed, o, n)
        && forall k :: 0 <= k < |p.plan.optional| ==> !BroughtUp(p, completed, o, k, n))
    || (exists k :: 0 <= k < |p.plan.optional| && p.plan.optional[k].name == n && StartEnds(p, completed, o, k, false)
                    && forall j :: k < j < |p.plan.optional| ==> !BroughtUp(p, completed, o, j, n))
  }

  /**
    An optional service is reported as failed exactly if it failed and no start after
    that brought it up: it was not ready, its init service was due and failed, it needs
    such a one, or its own start failed; and a start brings up all that chains reach.
  */
  lemma FailuresByFacts(p: Prepared, completed: set<Name>, o: Outcomes, failures: set<Name>, n: Name)
    requires PreparedMeets(p) && p.plan.completed <= completed && FailExactly(p, InitFailures(p, completed, o), o, failures)
    requires n in Names(p.plan)
    ensures n in failures <==> FailsLastly(p, completed, o, n)
  {
    var initFailed := InitFailures(p, completed, o);
    var startable := Startable(p, initFailed);
    FailedFirstByFacts(p, completed, o, n);
    forall k | 0 <= k < |p.plan.optional|
      ensures Clears(p, startable, o, k, n) <==> BroughtUp(p, completed, o, k, n)
      ensures Breaks(p, startable, o, k, n) <==> p.plan.optional[k].name == n && StartEnds(p, completed, o, k, false)
    {
      TriedByFacts(p, completed, o, k);
    }
    LastlyByMoves(p, completed, o, startable, FailedFirst(p, initFailed), n);
  }

  lemma LastlyByMoves(p: Prepared, completed: set<Name>, o: Outcomes, startable: set<Name>, first: set<Name>, n: Name)
    requires n in first <==> FailedBefore(p, completed, o, n)
    requires forall k :: 0 <= k < |p.plan.optional| ==> (Clears(p, startable, o, k, n) <==> BroughtUp(p, completed, o, k, n))
    requires forall k :: 0 <= k < |p.plan.optional| ==>
               (Breaks(p, startable, o, k, n) <==> p.plan.optional[k].name == n && StartEnds(p, completed, o, k, false))
    ensures FailsAtLast(p, startable, first, o, |p.plan.optional|, n) <==> FailsLastly(p, completed, o, n)
  {
  }

  lemma TriedByFacts(p: Prepared, completed: set<Name>, o: Outcomes, k: nat)
    requires PreparedMeets(p) && p.plan.completed <= completed && k < |p.plan.optional|
    ensures var e := p.plan.optional[k];
            Tried(p, Startable(p, InitFailures(p, completed, o)), k) <==> !e.isInit && e.name in p.ready && !Misses(p, completed, o, e)
  {
    var e := p.plan.optional[k];
    StarvedByFacts(p, completed, o, e.name);
    PlanPartitions(p.c, p.plan.completed, p.plan);
    forall other | other in p.plan.optional && other.name == e.name
      ensures other == e
    {
      var j :| 0 <= j < |p.plan.optional| && p.plan.optional[j] == other;
      assert EntryNamesOf(p.plan.optional)[j] == EntryNamesOf(p.plan.optional)[k];
    }
  }

  lemma StarvedByFacts(p: Prepared, completed: set<Name>, o: Outcomes, n: Name)
    requires PreparedMeets(p) && p.plan.completed <= completed
    ensures n in Starved(p, InitFailures(p, completed, o)) <==>
              exists e :: e in p.plan.optional && e.name == n && Misses(p, completed, o, e)
  {
    var missing := Skipped(p) + InitFailures(p, completed, o);
    forall d
      ensures d in missing <==> InitMissed(p, completed, o, d)
    {
      MissedByFacts(p, completed, o, d);
    }
    forall e | e in p.plan.optional && !e.isInit
      ensures e.initDependencies * missing != {} <==> Misses(p, completed, o, e)
    {
      if e.initDependencies * missing != {} {
        var d :| d in e.initDependencies * missing;
        assert InitMissed(p, completed, o, d);
      }
      if Misses(p, completed, o, e) {
        var d :| d in e.initDependencies && InitMissed(p, completed, o, d);
        assert d in e.initDependencies * missing;
      }
    }
  }

  lemma MissedByFacts(p: Prepared, completed: set<Name>, o: Outcomes, d: Name)
    requires PreparedMeets(p) && p.plan.completed <= completed
    ensures d in Skipped(p) + InitFailures(p, completed, o) <==> InitMissed(p, completed, o, d)
  {
    PendingSplits(p, completed, Skipped(p));
    if d in InitFailures(p, completed, o) {
      var k :| 0 <= k < |p.plan.optional| && EntryNamesOf(p.plan.optional)[k] == d;
      assert EntryMeets(p.c, p.plan.completed, p.plan.optional[k]);
    }
    if e :| e in p.plan.optional && e.isInit && e.name == d && d in p.ready && d !in completed && d !in p.plan.requiredInit && !o.init(d) {
      assert EntryMeets(p.c, p.plan.completed, e);
      if d !in Skipped(p) {
        assert d in PendingInit(p.c, completed, Skipped(p));
      }
    }
  }

  lemma FailedFirstByFacts(p: Prepared, completed: set<Name>, o: Outcomes, n: Name)
    requires PreparedMeets(p) && p.plan.completed <= completed && n in Names(p.plan)
    ensures n in FailedFirst(p, InitFailures(p, completed, o)) <==> FailedBefore(p, completed, o, n)
  {
    StarvedByFacts(p, completed, o, n);
    MissedByFacts(p, completed, o, n);
    assert n in p.failures <==> n !in p.ready;
    if n in Skipped(p) {
      assert n in p.failures;
    }
  }

  // ---- Markers and the runtime part ------------------------------------------------------------------

  /** A new marker has the current version, names the services whose start failed, and has the fingerprint of that start. */
  lemma NewMarkerTells(c: Compose, plan: Plan, e: OptionalEntry, required: bool, m: Marker)
    requires m == NewMarker(if required then RequiredContext(c, plan) else OptionalContext(c, plan, e))
    ensures m.versionTwo && m.services == (if required then plan.required else e.services) && IsStartOf(m.signature, c, m.services)
  {
  }

  /** The runtime part has every service but the init services, and no dependency on one of these. */
  lemma RuntimeByFlags(c: Compose, completed: set<Name>, plan: Plan, n: Name)
    requires PlanMeets(c, completed, plan)
    ensures n in plan.runtime.defs <==> n in c.defs && !c.defs[n].isInit
    ensures n in plan.runtime.defs ==>
              forall d :: NamesDependency(plan.runtime.defs[n], d) <==> NamesDependency(c.defs[n], d) && !(d in c.defs && c.defs[d].isInit)
  {
    var inits := InitNames(c);
    WithoutMeaning(c, inits);
    if n in plan.runtime.defs {
      SelectMembers(Dependencies(c.defs[n]), d => d !in inits);
      forall d
        ensures NamesDependency(plan.runtime.defs[n], d) <==> NamesDependency(c.defs[n], d) && !(d in c.defs && c.defs[d].isInit)
      {
        NamesAreDependencies(plan.runtime.defs[n], d);
        NamesAreDependencies(c.defs[n], d);
      }
    }
  }
}
