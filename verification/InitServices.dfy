/**
  The fingerprinted init runner of one app project: init services run in
  dependency order, each at most once for a given definition.
 */
module InitServices {
  import opened Sequences
  import opened Services

  /** Definitions as the JSON fingerprint sees them: mapping keys are sorted first. */
  datatype SortedDependsOn = NoDependencies | NameList(names: seq<Name>) | ConditionMap(conditions: map<Name, string>)
  datatype Definition = Definition(isInit: bool, optional: bool, dependsOn: SortedDependsOn, rest: string)

  /** The fingerprint is injective in the service's name and definition. */
  datatype InitSignature = InitSignature(service: Name, definition: Definition)

  /** One `compose run` of an init service, with the Compose file it ran from. */
  datatype InitRun = InitRun(service: Name, compose: Compose)

  function ConditionsOf(entries: seq<(Name, string)>): map<Name, string> {
    if entries == [] then map[]
    else ConditionsOf(entries[..|entries| - 1])[entries[|entries| - 1].0 := entries[|entries| - 1].1]
  }

  function DefinitionOf(s: Service): Definition {
    var sorted := match s.dependsOn
      case Absent => NoDependencies
      case Listed(names) => NameList(names)
      case Conditioned(entries) => ConditionMap(ConditionsOf(entries));
    Definition(s.isInit, s.optional, sorted, s.definition)
  }

  function SignatureOf(c: Compose, n: Name): InitSignature
    requires n in c.defs
  {
    InitSignature(n, DefinitionOf(c.defs[n]))
  }

  /** Init services whose recorded fingerprint matches their current definition. */
  function CompletedInit(c: Compose, signatures: map<Name, InitSignature>): set<Name> {
    set n | n in c.defs.Keys && c.defs[n].isInit && n in signatures && signatures[n] == SignatureOf(c, n)
  }

  /** A failing init service is tolerated when it is optional and nothing required needs it. */
  predicate Tolerated(c: Compose, required: set<Name>, n: Name) {
    n in c.defs && c.defs[n].optional && n !in required
  }

  /** The state of a run after the first `done` services of `ordered`. */
  ghost predicate RanPrefix(c: Compose, removed: set<Name>, ordered: seq<Name>, done: nat, runs: seq<InitRun>) {
    && done <= |ordered|
    && |runs| == done
    && forall k :: 0 <= k < done ==> runs[k] == InitRun(ordered[k], Without(c, removed + ToSet(ordered[..k])))
  }

  ghost function Recorded(c: Compose, before: map<Name, InitSignature>, ran: set<Name>, init: Name -> bool): map<Name, InitSignature> {
    before + map n | n in ran && n in c.defs && init(n) :: SignatureOf(c, n)
  }

  class InitRunner {
    var signatures: map<Name, InitSignature>
    var runs: seq<InitRun>

    constructor (signatures: map<Name, InitSignature>)
      ensures this.signatures == signatures && runs == []
    {
      this.signatures := signatures;
      runs := [];
    }

    /**
      `init` says how each container run ends. The runs of this call are
      `ordered[..done]`; `blocker` is the required service that stopped it.
     */
    method Run(c: Compose, skipped: set<Name>, required: set<Name>, init: Name -> bool)
      returns (ok: bool, failed: set<Name>, blocker: Option<Name>,
               ghost ordered: seq<Name>, ghost done: nat, ghost made: seq<InitRun>)
      requires c.Valid()
      modifies this
      ensures IsInitOrder(c, PendingInit(c, CompletedInit(c, old(signatures)), skipped), ordered)
      ensures runs == old(runs) + made
      ensures RanPrefix(c, CompletedInit(c, old(signatures)) + skipped, ordered, done, made)
      ensures signatures == Recorded(c, old(signatures), ToSet(ordered[..done]), init)
      ensures failed == set n | n in ordered[..done] && !init(n) && Tolerated(c, required, n)
      ensures ok <==> forall n :: n in ordered ==> init(n) || Tolerated(c, required, n)
      ensures ok ==> done == |ordered| && blocker == None
      ensures !ok ==> 0 < done && blocker == Some(ordered[done - 1])
                      && !init(ordered[done - 1]) && !Tolerated(c, required, ordered[done - 1])
      ensures forall n :: n in ordered[..done] ==> blocker == Some(n) || init(n) || Tolerated(c, required, n)
    {
      var completed := CompletedInit(c, signatures);
      ghost var before := signatures;
      var order := OrderedPendingInitServices(c, completed, skipped);
      var execution := ComposeWithoutServices(c, completed + skipped);
      assert forall n :: n in order ==> n in ToSet(order);
      ordered := order;
      ok, failed, blocker, done, made := RunOrdered(c, required, init, order, execution, completed + skipped);
      assert order[..|order|] == order;
      if !ok {
        assert order[done - 1] in order;
      }
    }

    /** The loop of `Run` over an order already computed. */
    method RunOrdered(c: Compose, required: set<Name>, init: Name -> bool, order: seq<Name>, start: Compose, ghost removed: set<Name>)
      returns (ok: bool, failed: set<Name>, blocker: Option<Name>, ghost done: nat, ghost made: seq<InitRun>)
      requires start.Valid() && start == Without(c, removed)
      requires forall n :: n in order ==> n in c.defs
      modifies this
      ensures done <= |order| && runs == old(runs) + made
      ensures RanPrefix(c, removed, order, done, made)
      ensures signatures == Recorded(c, old(signatures), ToSet(order[..done]), init)
      ensures failed == set n | n in order[..done] && !init(n) && Tolerated(c, required, n)
      ensures ok ==> done == |order| && blocker == None
      ensures !ok ==> 0 < done && blocker == Some(order[done - 1])
                      && !init(order[done - 1]) && !Tolerated(c, required, order[done - 1])
      ensures forall n :: n in order[..done] ==> blocker == Some(n) || init(n) || Tolerated(c, required, n)
    {
      ghost var call := Call(c, removed, required, init, signatures, order);
      Begin(call, start);
      var execution := start;
      done, made, failed, blocker := 0, [], {}, None;
      var i := 0;
      while i < |order|
        invariant 0 <= i <= |order| && done == i
        invariant runs == old(runs) + made && execution.Valid()
        invariant Progress(call, i, made, signatures, failed, execution)
      {
        var name := order[i];
        Advance(call, i, made, signatures, failed, execution);
        runs := runs + [InitRun(name, execution)];
        done, made := i + 1, made + [InitRun(name, execution)];
        if !init(name) {
          if !Tolerated(c, required, name) {
            return false, failed, Some(name), done, made;
          }
          failed := failed + {name};
        } else {
          signatures := signatures[name := SignatureOf(c, name)];
        }
        execution := ComposeWithoutServices(execution, {name});
        i := i + 1;
      }
      ok := true;
    }
  }

  /** What stays fixed while one call works through its order; `removed` leaves before the first run. */
  datatype Call = Call(c: Compose, removed: set<Name>, required: set<Name>, init: Name -> bool,
                       before: map<Name, InitSignature>, order: seq<Name>)

  ghost function FailedOf(call: Call, ran: seq<Name>): set<Name> {
    set n | n in ran && !call.init(n) && Tolerated(call.c, call.required, n)
  }

  /** After `i` services that succeeded or were tolerated. */
  ghost predicate Progress(call: Call, i: nat, runs: seq<InitRun>, signatures: map<Name, InitSignature>,
                           failed: set<Name>, execution: Compose) {
    && RanPrefix(call.c, call.removed, call.order, i, runs)
    && execution == Without(call.c, call.removed + ToSet(call.order[..i]))
    && signatures == Recorded(call.c, call.before, ToSet(call.order[..i]), call.init)
    && failed == FailedOf(call, call.order[..i])
    && forall n :: n in call.order[..i] ==> call.init(n) || Tolerated(call.c, call.required, n)
  }

  lemma Begin(call: Call, execution: Compose)
    requires execution == Without(call.c, call.removed)
    ensures Progress(call, 0, [], call.before, {}, execution)
  {
    assert call.removed + ToSet(call.order[..0]) == call.removed;
  }

  lemma Advance(call: Call, i: nat, runs: seq<InitRun>, signatures: map<Name, InitSignature>,
                failed: set<Name>, execution: Compose)
    requires i < |call.order| && call.order[i] in call.c.defs
    requires Progress(call, i, runs, signatures, failed, execution)
    ensures call.order[..i + 1] == call.order[..i] + [call.order[i]]
    ensures RanPrefix(call.c, call.removed, call.order, i + 1, runs + [InitRun(call.order[i], execution)])
    ensures Recorded(call.c, call.before, ToSet(call.order[..i + 1]), call.init)
         == if call.init(call.order[i]) then signatures[call.order[i] := SignatureOf(call.c, call.order[i])] else signatures
    ensures Without(execution, {call.order[i]}) == Without(call.c, call.removed + ToSet(call.order[..i + 1]))
    ensures FailedOf(call, call.order[..i + 1])
         == if !call.init(call.order[i]) && Tolerated(call.c, call.required, call.order[i])
            then failed + {call.order[i]} else failed
  {
    PrefixGrows(call.c, call.order, i, call.removed, execution);
    RecordOne(call.c, call.before, call.order, i, call.init);
    FailOne(call, i);
    RunOne(call, i, runs, InitRun(call.order[i], execution));
  }

  lemma RunOne(call: Call, i: nat, runs: seq<InitRun>, run: InitRun)
    requires i < |call.order| && RanPrefix(call.c, call.removed, call.order, i, runs)
    requires run == InitRun(call.order[i], Without(call.c, call.removed + ToSet(call.order[..i])))
    ensures RanPrefix(call.c, call.removed, call.order, i + 1, runs + [run])
  {
    var longer := runs + [run];
    forall k | 0 <= k < i + 1
      ensures longer[k] == InitRun(call.order[k], Without(call.c, call.removed + ToSet(call.order[..k])))
    {
      assert k < i ==> longer[k] == runs[k];
    }
  }

  lemma FailOne(call: Call, i: nat)
    requires i < |call.order|
    ensures FailedOf(call, call.order[..i + 1])
         == if !call.init(call.order[i]) && Tolerated(call.c, call.required, call.order[i])
            then FailedOf(call, call.order[..i]) + {call.order[i]} else FailedOf(call, call.order[..i])
  {
    assert call.order[..i + 1] == call.order[..i] + [call.order[i]];
  }

  lemma PrefixGrows(c: Compose, order: seq<Name>, i: nat, base: set<Name>, execution: Compose)
    requires i < |order| && execution == Without(c, base + ToSet(order[..i]))
    ensures order[..i + 1] == order[..i] + [order[i]]
    ensures ToSet(order[..i + 1]) == ToSet(order[..i]) + {order[i]}
    ensures Without(execution, {order[i]}) == Without(c, base + ToSet(order[..i + 1]))
  {
    assert order[..i + 1] == order[..i] + [order[i]];
    WithoutComposes(c, base + ToSet(order[..i]), {order[i]});
    assert base + ToSet(order[..i]) + {order[i]} == base + ToSet(order[..i + 1]);
  }

  lemma RecordOne(c: Compose, before: map<Name, InitSignature>, order: seq<Name>, i: nat, init: Name -> bool)
    requires i < |order| && order[i] in c.defs
    ensures Recorded(c, before, ToSet(order[..i + 1]), init)
         == if init(order[i]) then Recorded(c, before, ToSet(order[..i]), init)[order[i] := SignatureOf(c, order[i])]
            else Recorded(c, before, ToSet(order[..i]), init)
  {
    assert order[..i + 1] == order[..i] + [order[i]];
  }

  /**
    On an acyclic pending graph, the Compose file of each run still holds the
    service and gives it no direct dependency on any init service.
   */
  lemma RunHasNoInitDependency(c: Compose, completed: set<Name>, skipped: set<Name>, ordered: seq<Name>, done: nat, runs: seq<InitRun>)
    requires c.Valid()
    requires IsInitOrder(c, PendingInit(c, completed, skipped), ordered)
    requires Acyclic(c, PendingInit(c, completed, skipped))
    requires RanPrefix(c, completed + skipped, ordered, done, runs)
    ensures forall r :: r in runs ==> r.service in r.compose.defs
    ensures forall r, d :: r in runs && r.service in r.compose.defs && d in Dependencies(r.compose.defs[r.service])
              ==> !(d in c.defs && c.defs[d].isInit)
  {
    var pending := PendingInit(c, completed, skipped);
    AcyclicOrderIsTopological(c, pending, ordered);
    forall r | r in runs
      ensures r.service in r.compose.defs
      ensures forall d :: d in Dependencies(r.compose.defs[r.service]) ==> !(d in c.defs && c.defs[d].isInit)
    {
      var k :| 0 <= k < done && runs[k] == r;
      var removed := completed + skipped + ToSet(ordered[..k]);
      assert ordered[k] in ToSet(ordered);
      WithoutMeaning(c, removed);
      var dependencies := Dependencies(c.defs[r.service]);
      SelectMembers(dependencies, d => d !in removed);
      forall d | d in dependencies && d in c.defs && c.defs[d].isInit
        ensures d in removed
      {
        if d in pending {
          assert Before(ordered, d, k);
        }
      }
    }
  }

  // ---- Over many calls -----------------------------------------------------------

  datatype RunnerCall = RunnerCall(c: Compose, skipped: set<Name>, required: set<Name>, init: Name -> bool)

  predicate Ran(runs: seq<InitRun>, n: Name) {
    exists k :: 0 <= k < |runs| && runs[k].service == n
  }

  function AllRuns(made: seq<seq<InitRun>>): seq<InitRun> {
    if made == [] then [] else AllRuns(made[..|made| - 1]) + made[|made| - 1]
  }

  /** The fingerprint of `n` is the same in every call from `i` to `j` that has it. */
  ghost predicate SameDefinition(calls: seq<RunnerCall>, i: nat, j: nat, n: Name)
    requires i <= j < |calls|
  {
    n in calls[i].c.defs
    && forall l :: i <= l <= j && n in calls[l].c.defs ==> SignatureOf(calls[l].c, n) == SignatureOf(calls[i].c, n)
  }

  /** After `k` calls, each success is still recorded unless its definition has changed. */
  ghost predicate Remembered(calls: seq<RunnerCall>, made: seq<seq<InitRun>>, k: nat, signatures: map<Name, InitSignature>)
    requires k <= |calls| && k <= |made|
  {
    forall i, n :: 0 <= i < k && n in calls[i].c.defs && calls[i].c.defs[n].isInit && Ran(made[i], n) && calls[i].init(n)
                   && SameDefinition(calls, i, k - 1, n)
      ==> n in signatures && signatures[n] == SignatureOf(calls[i].c, n)
  }

  /** What one call ran, and left recorded. */
  ghost predicate CallDone(call: RunnerCall, before: map<Name, InitSignature>, made: seq<InitRun>, after: map<Name, InitSignature>) {
    && (forall n :: Ran(made, n) ==> n in PendingInit(call.c, CompletedInit(call.c, before), call.skipped))
    && (forall n :: n in after ==> if Ran(made, n) && n in call.c.defs && call.init(n) then after[n] == SignatureOf(call.c, n)
                                   else n in before && after[n] == before[n])
    && (forall n :: n in before ==> n in after)
    && (forall n :: Ran(made, n) && n in call.c.defs && call.init(n) ==> n in after)
  }

  /** An init service that is not left out, and not recorded with the definition it has now. */
  predicate DueInit(call: RunnerCall, before: map<Name, InitSignature>, n: Name) {
    && n in call.c.defs && call.c.defs[n].isInit && n !in call.skipped
    && (n in before ==> before[n] != InitSignature(n, DefinitionOf(call.c.defs[n])))
  }

  method RunCall(runner: InitRunner, call: RunnerCall) returns (ok: bool, ghost made: seq<InitRun>)
    requires call.c.Valid()
    modifies runner
    ensures runner.runs == old(runner.runs) + made && CallDone(call, old(runner.signatures), made, runner.signatures)
    ensures forall n :: Ran(made, n) ==> DueInit(call, old(runner.signatures), n)
    ensures ok ==> forall n :: DueInit(call, old(runner.signatures), n) ==> Ran(made, n)
    ensures ok <==> forall n :: DueInit(call, old(runner.signatures), n) ==>
              call.init(n) || (call.c.defs[n].optional && n !in call.required)
  {
    ghost var before := runner.signatures;
    ghost var order, done;
    var failed, blocker;
    ok, failed, blocker, order, done, made := runner.Run(call.c, call.skipped, call.required, call.init);
    RanAre(made, order, done);
    DueAre(call, before, order);
    assert forall n :: n in ToSet(order[..done]) ==> n in ToSet(order);
    assert ok ==> order[..done] == order;
  }

  lemma RanAre(made: seq<InitRun>, order: seq<Name>, done: nat)
    requires done <= |order| && |made| == done && forall k :: 0 <= k < done ==> made[k].service == order[k]
    ensures forall n :: Ran(made, n) <==> n in ToSet(order[..done])
  {
    forall n
      ensures Ran(made, n) <==> n in ToSet(order[..done])
    {
      if k :| 0 <= k < done && order[..done][k] == n {
        assert made[k].service == n;
      }
      if k :| 0 <= k < |made| && made[k].service == n {
        assert order[..done][k] == n;
      }
    }
  }

  lemma DueAre(call: RunnerCall, before: map<Name, InitSignature>, order: seq<Name>)
    requires ToSet(order) == PendingInit(call.c, CompletedInit(call.c, before), call.skipped)
    ensures forall n :: DueInit(call, before, n) <==> n in order
  {
    forall n
      ensures DueInit(call, before, n) <==> n in order
    {
      assert n in order <==> n in ToSet(order);
    }
  }

  lemma RememberedOn(calls: seq<RunnerCall>, made: seq<seq<InitRun>>, k: nat, before: map<Name, InitSignature>, after: map<Name, InitSignature>)
    requires k < |calls| && k < |made| && Remembered(calls, made, k, before) && CallDone(calls[k], before, made[k], after)
    ensures Remembered(calls, made, k + 1, after)
    ensures forall i, n :: 0 <= i < k && Ran(made[i], n) && n in calls[i].c.defs && calls[i].c.defs[n].isInit && calls[i].init(n)
                           && SameDefinition(calls, i, k, n)
              ==> !Ran(made[k], n)
  {
    forall i, n | 0 <= i < k && n in calls[i].c.defs && calls[i].c.defs[n].isInit && Ran(made[i], n) && calls[i].init(n)
                  && SameDefinition(calls, i, k, n)
      ensures !Ran(made[k], n) && n in after && after[n] == SignatureOf(calls[i].c, n)
    {
      assert SameDefinition(calls, i, k - 1, n);
      if n in calls[k].c.defs {
        assert SignatureOf(calls[k].c, n) == SignatureOf(calls[i].c, n);
        assert n in CompletedInit(calls[k].c, before);
      }
    }
  }

  ghost predicate InitsOnly(calls: seq<RunnerCall>, made: seq<seq<InitRun>>, k: nat)
    requires k <= |calls| && k <= |made|
  {
    forall i, n :: 0 <= i < k && Ran(made[i], n) ==> n in calls[i].c.defs && calls[i].c.defs[n].isInit
  }

  /** No service that ran well is run again with the same definition, however the rest of the Compose files changes. */
  ghost predicate NeverAgain(calls: seq<RunnerCall>, made: seq<seq<InitRun>>, k: nat)
    requires k <= |calls| && k <= |made|
  {
    forall i, j, n :: 0 <= i < j < k && Ran(made[i], n) && SameDefinition(calls, i, j, n) && calls[i].init(n) ==> !Ran(made[j], n)
  }

  lemma CallAdded(calls: seq<RunnerCall>, earlier: seq<seq<InitRun>>, now: seq<InitRun>, k: nat,
                  before: map<Name, InitSignature>, after: map<Name, InitSignature>)
    requires k == |earlier| < |calls| && Remembered(calls, earlier, k, before)
    requires InitsOnly(calls, earlier, k) && NeverAgain(calls, earlier, k) && CallDone(calls[k], before, now, after)
    ensures var made := earlier + [now];
            && Remembered(calls, made, k + 1, after) && InitsOnly(calls, made, k + 1) && NeverAgain(calls, made, k + 1)
  {
    var made := earlier + [now];
    assert forall i :: 0 <= i < k ==> made[i] == earlier[i];
    assert Remembered(calls, made, k, before);
    RememberedOn(calls, made, k, before, after);
  }

  /** Over any number of calls: a success is never run again as long as the definition stays the same. */
  method RunCalls(runner: InitRunner, calls: seq<RunnerCall>) returns (ghost made: seq<seq<InitRun>>)
    requires forall call :: call in calls ==> call.c.Valid()
    modifies runner
    ensures |made| == |calls| && runner.runs == old(runner.runs) + AllRuns(made)
    ensures forall i, j, n :: 0 <= i < j < |calls| && Ran(made[i], n) && SameDefinition(calls, i, j, n) && calls[i].init(n)
              ==> !Ran(made[j], n)
  {
    made := [];
    for k := 0 to |calls|
      invariant |made| == k && runner.runs == old(runner.runs) + AllRuns(made)
      invariant Remembered(calls, made, k, runner.signatures) && InitsOnly(calls, made, k) && NeverAgain(calls, made, k)
    {
      ghost var before := runner.signatures;
      ghost var now;
      var ok;
      ok, now := RunCall(runner, calls[k]);
      CallAdded(calls, made, now, k, before, runner.signatures);
      assert (made + [now])[..k] == made;
      made := made + [now];
    }
  }

  // ---- What a definition is ------------------------------------------------------------------------

  /** The last entry for `x` says `v`, as in a mapping written from these entries. */
  ghost predicate Gives(entries: seq<(Name, string)>, x: Name, v: string) {
    exists i: nat :: GivesAt(entries, x, v, i)
  }

  ghost predicate GivesAt(entries: seq<(Name, string)>, x: Name, v: string, i: nat) {
    i < |entries| && entries[i] == (x, v) && forall j :: i < j < |entries| ==> entries[j].0 != x
  }

  lemma {:induction false} ConditionIsGiven(entries: seq<(Name, string)>, x: Name) returns (i: nat)
    requires x in ConditionsOf(entries)
    ensures GivesAt(entries, x, ConditionsOf(entries)[x], i)
  {
    var last := |entries| - 1;
    if entries[last].0 == x {
      i := last;
    } else {
      i := ConditionIsGiven(entries[..last], x);
      assert entries[i] == entries[..last][i];
      assert forall j :: i < j < last ==> entries[j] == entries[..last][j];
    }
  }

  lemma {:induction false} GivenIsCondition(entries: seq<(Name, string)>, x: Name, v: string, i: nat)
    requires GivesAt(entries, x, v, i)
    ensures x in ConditionsOf(entries) && ConditionsOf(entries)[x] == v
  {
    var last := |entries| - 1;
    if i < last {
      assert entries[last].0 != x;
      assert forall j :: 0 <= j < last ==> entries[j] == entries[..last][j];
      GivenIsCondition(entries[..last], x, v, i);
    }
  }

  lemma ConditionsGive(entries: seq<(Name, string)>, x: Name, v: string)
    ensures Gives(entries, x, v) <==> x in ConditionsOf(entries) && ConditionsOf(entries)[x] == v
  {
    if x in ConditionsOf(entries) {
      var i := ConditionIsGiven(entries, x);
    }
    if i: nat :| GivesAt(entries, x, v, i) {
      GivenIsCondition(entries, x, v, i);
    }
  }

  /** The same dependencies: the same list, or mappings with the same conditions, in whatever order. */
  ghost predicate SameDependencies(a: DependsOn, b: DependsOn) {
    match a
    case Absent => b.Absent?
    case Listed(names) => b.Listed? && b.names == names
    case Conditioned(entries) => b.Conditioned? && forall x, v :: Gives(entries, x, v) <==> Gives(b.entries, x, v)
  }

  /** Two definitions have one fingerprint exactly if they agree in every part. */
  lemma FingerprintTells(a: Service, b: Service)
    ensures DefinitionOf(a) == DefinitionOf(b) <==>
            && a.isInit == b.isInit && a.optional == b.optional && a.definition == b.definition
            && SameDependencies(a.dependsOn, b.dependsOn)
  {
    if a.dependsOn.Conditioned? && b.dependsOn.Conditioned? {
      SameConditions(a.dependsOn.entries, b.dependsOn.entries);
    }
  }

  lemma SameConditions(a: seq<(Name, string)>, b: seq<(Name, string)>)
    ensures ConditionsOf(a) == ConditionsOf(b) <==> forall x, v :: Gives(a, x, v) <==> Gives(b, x, v)
  {
    var left, right := ConditionsOf(a), ConditionsOf(b);
    forall x, v
      ensures Gives(a, x, v) <==> x in left && left[x] == v
      ensures Gives(b, x, v) <==> x in right && right[x] == v
    {
      ConditionsGive(a, x, v);
      ConditionsGive(b, x, v);
    }
    if forall x, v :: Gives(a, x, v) <==> Gives(b, x, v) {
      SameMaps(a, b, left, right);
    }
  }

  lemma SameMaps(a: seq<(Name, string)>, b: seq<(Name, string)>, left: map<Name, string>, right: map<Name, string>)
    requires forall x, v :: Gives(a, x, v) <==> x in left && left[x] == v
    requires forall x, v :: Gives(b, x, v) <==> x in right && right[x] == v
    requires forall x, v :: Gives(a, x, v) <==> Gives(b, x, v)
    ensures left == right
  {
    forall x
      ensures x in left <==> x in right
      ensures x in left ==> left[x] == right[x]
    {
      if x in left {
        assert Gives(a, x, left[x]);
      }
      if x in right {
        assert Gives(b, x, right[x]);
      }
    }
  }

  /**
    A service recorded with the definition it had in another Compose file is due again
    exactly if any part of its definition differs now.
  */
  lemma DueAgainIffChanged(call: RunnerCall, earlier: Compose, before: map<Name, InitSignature>, n: Name)
    requires n in call.c.defs && call.c.defs[n].isInit && n !in call.skipped
    requires n in earlier.defs && n in before && before[n] == SignatureOf(earlier, n)
    ensures var now, was := call.c.defs[n], earlier.defs[n];
            DueInit(call, before, n) <==>
              || !was.isInit || now.optional != was.optional || now.definition != was.definition
              || !SameDependencies(now.dependsOn, was.dependsOn)
  {
    FingerprintTells(call.c.defs[n], earlier.defs[n]);
  }
}
