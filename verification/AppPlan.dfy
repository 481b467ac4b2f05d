/**
  Planning one app project: which services are required, and which optional ones
  can be left out without touching those.
 */
module AppPlan {
  import opened Sequences
  import opened Services
  import opened InitServices

  // ---- Planning ---------------------------------------------------------------

  /** One optional service outside the required closure, with what it needs. */
  datatype OptionalEntry = OptionalEntry(isInit: bool, name: Name, services: set<Name>, initDependencies: set<Name>)

  datatype Plan = Plan(runtime: Compose, requiredRuntime: seq<Name>, required: set<Name>,
                       requiredInit: set<Name>, completed: set<Name>, optional: seq<OptionalEntry>)

  function InitNames(c: Compose): set<Name> {
    set n | n in c.defs.Keys && c.defs[n].isInit
  }

  predicate IsRequiredRuntime(c: Compose, n: Name) {
    n in c.defs && !c.defs[n].isInit && !c.defs[n].optional
  }

  predicate IsRequiredInit(c: Compose, completed: set<Name>, n: Name) {
    n in c.defs && c.defs[n].isInit && !c.defs[n].optional && n !in completed
  }

  predicate IsOptionalOf(c: Compose, completed: set<Name>, isInit: bool, n: Name) {
    n in c.defs && c.defs[n].isInit == isInit && c.defs[n].optional && n !in completed
  }

  function RequiredRuntime(c: Compose): seq<Name> {
    Select(c.order, n => IsRequiredRuntime(c, n))
  }

  function RequiredRoots(c: Compose, completed: set<Name>): seq<Name> {
    Select(c.order, n => IsRequiredInit(c, completed, n)) + RequiredRuntime(c)
  }

  ghost function RequiredServices(c: Compose, completed: set<Name>): set<Name> {
    Closure(c, RequiredRoots(c, completed), completed)
  }

  function EntryNamesOf(entries: seq<OptionalEntry>): (names: seq<Name>)
    ensures |names| == |entries|
    ensures forall i :: 0 <= i < |names| ==> names[i] == entries[i].name
  {
    seq(|entries|, i requires 0 <= i < |entries| => entries[i].name)
  }

  ghost predicate EntryMeets(c: Compose, completed: set<Name>, e: OptionalEntry) {
    && e.name in c.defs && e.isInit == c.defs[e.name].isInit
    && e.services == Closure(c, [e.name], completed)
    && e.initDependencies == set d | d in e.services && d != e.name && c.defs[d].isInit
  }

  ghost function OptionalNames(c: Compose, completed: set<Name>, required: set<Name>, isInit: bool): seq<Name> {
    Select(c.order, n => IsOptionalOf(c, completed, isInit, n) && n !in required)
  }

  ghost predicate PlanMeets(c: Compose, completed: set<Name>, plan: Plan) {
    && plan.runtime == Without(c, InitNames(c))
    && plan.completed == completed
    && plan.requiredRuntime == RequiredRuntime(c)
    && plan.required == RequiredServices(c, completed)
    && plan.requiredInit == (set n | n in plan.required && c.defs[n].isInit)
    && EntryNamesOf(plan.optional)
       == OptionalNames(c, completed, plan.required, true) + OptionalNames(c, completed, plan.required, false)
    && forall e :: e in plan.optional ==> EntryMeets(c, completed, e)
  }

  method OptionalEntries(c: Compose, completed: set<Name>, required: set<Name>, isInit: bool) returns (entries: seq<OptionalEntry>)
    requires c.Valid()
    ensures EntryNamesOf(entries) == OptionalNames(c, completed, required, isInit)
    ensures forall e :: e in entries ==> EntryMeets(c, completed, e)
  {
    entries := [];
    ghost var keep := n => IsOptionalOf(c, completed, isInit, n) && n !in required;
    for i := 0 to |c.order|
      invariant EntryNamesOf(entries) == Select(c.order[..i], keep)
      invariant forall e :: e in entries ==> EntryMeets(c, completed, e)
    {
      var name := c.order[i];
      assert c.order[..i + 1] == c.order[..i] + [name];
      SelectAppend(c.order[..i], [name], keep);
      if IsOptionalOf(c, completed, isInit, name) && name !in required {
        var services := ServiceClosure(c, [name], completed);
        var entry := OptionalEntry(isInit, name, services,
                                   set d | d in services && d != name && d in c.defs && c.defs[d].isInit);
        assert EntryNamesOf(entries + [entry]) == EntryNamesOf(entries) + [name];
        entries := entries + [entry];
      }
    }
    assert c.order[..|c.order|] == c.order;
  }

  method AppProjectPlan(c: Compose, completed: set<Name>, primary: Name) returns (plan: Option<Plan>)
    requires c.Valid()
    ensures plan.Some? <==> IsRequiredRuntime(c, primary)
    ensures plan.Some? ==> PlanMeets(c, completed, plan.value)
  {
    var requiredRuntime := RequiredRuntime(c);
    SelectMembers(c.order, n => IsRequiredRuntime(c, n));
    assert primary in c.defs <==> primary in ToSet(c.order);
    if primary !in requiredRuntime {
      return None;
    }
    var runtime := ComposeWithoutServices(c, InitNames(c));
    var required := ServiceClosure(c, RequiredRoots(c, completed), completed);
    var requiredInit := set n | n in required && n in c.defs && c.defs[n].isInit;
    var initEntries := OptionalEntries(c, completed, required, true);
    var runtimeEntries := OptionalEntries(c, completed, required, false);
    var optional := initEntries + runtimeEntries;
    assert EntryNamesOf(optional) == EntryNamesOf(initEntries) + EntryNamesOf(runtimeEntries);
    plan := Some(Plan(runtime, requiredRuntime, required, requiredInit, completed, optional));
  }

  lemma OptionalNamesAre(c: Compose, completed: set<Name>, required: set<Name>, isInit: bool)
    requires c.Valid()
    ensures Distinct(OptionalNames(c, completed, required, isInit))
    ensures forall n :: n in OptionalNames(c, completed, required, isInit)
              <==> IsOptionalOf(c, completed, isInit, n) && n !in required
  {
    var keep := n => IsOptionalOf(c, completed, isInit, n) && n !in required;
    SelectMembers(c.order, keep);
    SelectDistinct(c.order, keep);
    assert forall n :: n in c.defs <==> n in ToSet(c.order);
  }

  lemma RequiredRootsAre(c: Compose, completed: set<Name>)
    requires c.Valid()
    ensures forall n :: n in RequiredRoots(c, completed) <==> IsRequiredInit(c, completed, n) || IsRequiredRuntime(c, n)
    ensures forall n :: n in RequiredRuntime(c) <==> IsRequiredRuntime(c, n)
  {
    SelectMembers(c.order, n => IsRequiredInit(c, completed, n));
    SelectMembers(c.order, n => IsRequiredRuntime(c, n));
    assert forall n :: n in c.defs <==> n in ToSet(c.order);
  }

  ghost function Names(plan: Plan): set<Name> {
    ToSet(EntryNamesOf(plan.optional))
  }

  /**
    Whenever a plan exists, completed init services, required services and
    optional entries partition the services, and no entry name repeats.
   */
  lemma PlanPartitions(c: Compose, completed: set<Name>, plan: Plan)
    requires c.Valid() && completed <= InitNames(c) && PlanMeets(c, completed, plan)
    ensures completed + plan.required + Names(plan) == c.defs.Keys
    ensures completed !! plan.required && completed !! Names(plan) && plan.required !! Names(plan)
    ensures Distinct(EntryNamesOf(plan.optional))
  {
    var inits := OptionalNames(c, completed, plan.required, true);
    var runtimes := OptionalNames(c, completed, plan.required, false);
    OptionalNamesAre(c, completed, plan.required, true);
    OptionalNamesAre(c, completed, plan.required, false);
    RequiredRootsAre(c, completed);
    ClosureHoldsRoots(c, RequiredRoots(c, completed), completed);
    assert forall n :: n in Names(plan) <==> n in inits || n in runtimes;
    DistinctConcat(inits, runtimes);
    forall n | n in c.defs
      ensures n in completed || n in plan.required || n in Names(plan)
    {
      if !IsOptionalOf(c, completed, c.defs[n].isInit, n) && n !in completed {
        assert n in RequiredRoots(c, completed);
      }
    }
  }

  /** No runtime entry depends on an entry listed with or after it. */
  ghost predicate DependenciesListedFirst(plan: Plan) {
    forall i, j :: 0 <= i <= j < |plan.optional| && !plan.optional[i].isInit
      ==> plan.optional[j].name !in plan.optional[i].initDependencies
  }

  /** A plan lists every init entry before every runtime entry, and each entry among its own services. */
  lemma PlanIsOrdered(c: Compose, completed: set<Name>, plan: Plan)
    requires c.Valid() && completed <= InitNames(c) && PlanMeets(c, completed, plan)
    ensures DependenciesListedFirst(plan)
    ensures forall e :: e in plan.optional ==> e.name in Names(plan) && e.name in e.services
  {
    var inits := OptionalNames(c, completed, plan.required, true);
    var runtimes := OptionalNames(c, completed, plan.required, false);
    OptionalNamesAre(c, completed, plan.required, true);
    OptionalNamesAre(c, completed, plan.required, false);
    PlanPartitions(c, completed, plan);
    var names := EntryNamesOf(plan.optional);
    forall i | 0 <= i < |plan.optional|
      ensures names[i] in Names(plan) && names[i] in plan.optional[i].services
      ensures plan.optional[i].isInit <==> i < |inits|
    {
      var e := plan.optional[i];
      assert e in plan.optional && EntryMeets(c, completed, e) && names[i] in names;
      ClosureHoldsRoots(c, [e.name], completed);
      assert if i < |inits| then names[i] in inits else names[i] in runtimes;
    }
    forall i, j | 0 <= i <= j < |plan.optional| && !plan.optional[i].isInit
      ensures plan.optional[j].name !in plan.optional[i].initDependencies
    {
      assert EntryMeets(c, completed, plan.optional[i]) && EntryMeets(c, completed, plan.optional[j]);
    }
  }

  /** Dropping any set of optional entries leaves what is required untouched. */
  lemma RequiredIgnoresOptional(c: Compose, completed: set<Name>, dropped: set<Name>)
    requires c.Valid() && completed <= InitNames(c)
    requires dropped !! RequiredServices(c, completed)
    ensures RequiredServices(Without(c, dropped), completed) == RequiredServices(c, completed)
  {
    var less := Without(c, dropped);
    WithoutMeaning(c, dropped);
    SelectMembers(c.order, n => n !in dropped);
    assert forall n :: n in c.defs <==> n in ToSet(c.order);
    SelectDistinct(c.order, n => n !in dropped);
    assert less.Valid();
    RequiredRootsAre(c, completed);
    RequiredRootsAre(less, completed);
    var roots := RequiredRoots(c, completed);
    var fewer := RequiredRoots(less, completed);
    ClosureHoldsRoots(c, roots, completed);
    assert forall n :: n in roots <==> n in fewer;
    ChainsSurvive(c, completed, dropped, roots, fewer);
    ChainsLift(c, completed, dropped, roots, fewer);
  }

  lemma ChainsSurvive(c: Compose, completed: set<Name>, dropped: set<Name>, roots: seq<Name>, fewer: seq<Name>)
    requires dropped !! Closure(c, roots, completed)
    requires forall n :: n in roots ==> n in fewer
    ensures Closure(c, roots, completed) <= Closure(Without(c, dropped), fewer, completed)
  {
    var less := Without(c, dropped);
    WithoutMeaning(c, dropped);
    forall n | n in Closure(c, roots, completed)
      ensures n in less.defs && Reachable(less, completed, fewer, n)
    {
      var path :| ChainBetween(c, completed, roots, n, path);
      ChainInsideClosure(c, completed, roots, path);
      DependenciesKept(c, dropped, path);
      assert ChainBetween(less, completed, fewer, n, path);
    }
  }

  lemma ChainsLift(c: Compose, completed: set<Name>, dropped: set<Name>, roots: seq<Name>, fewer: seq<Name>)
    requires forall n :: n in fewer ==> n in roots
    ensures Closure(Without(c, dropped), fewer, completed) <= Closure(c, roots, completed)
  {
    var less := Without(c, dropped);
    WithoutMeaning(c, dropped);
    forall n | n in Closure(less, fewer, completed)
      ensures Reachable(c, completed, roots, n)
    {
      var path :| ChainBetween(less, completed, fewer, n, path);
      DependenciesKept(c, dropped, path);
      assert ChainBetween(c, completed, roots, n, path);
    }
  }

  lemma DependenciesKept(c: Compose, dropped: set<Name>, path: seq<Name>)
    requires forall i :: 0 <= i < |path| ==> path[i] in c.defs && path[i] !in dropped
    ensures forall i :: 0 <= i < |path| - 1 ==>
      (path[i + 1] in Dependencies(Without(c, dropped).defs[path[i]]) <==> path[i + 1] in Dependencies(c.defs[path[i]]))
  {
    WithoutMeaning(c, dropped);
    forall i | 0 <= i < |path| - 1
      ensures path[i + 1] in Dependencies(Without(c, dropped).defs[path[i]]) <==> path[i + 1] in Dependencies(c.defs[path[i]])
    {
      SelectMembers(Dependencies(c.defs[path[i]]), d => d !in dropped);
    }
  }

  lemma ChainInsideClosure(c: Compose, excluded: set<Name>, roots: seq<Name>, path: seq<Name>)
    requires Chain(c, excluded, path) && path[0] in roots
    ensures forall i :: 0 <= i < |path| ==> path[i] in Closure(c, roots, excluded)
  {
    forall i | 0 <= i < |path|
      ensures path[i] in Closure(c, roots, excluded)
    {
      assert ChainBetween(c, excluded, roots, path[i], path[..i + 1]);
    }
  }
}
