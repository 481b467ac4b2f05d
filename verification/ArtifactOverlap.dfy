/**
  A run in which two activation hooks overlap: the first one outlives its process,
  which takes the activation lock with it.
*/
module ArtifactOverlap {
  import opened Sequences
  import opened Artifacts
  import opened ArtifactRuns

  ghost predicate Reachable(c: Codec, s: State) {
    exists states, steps :: Run(c, states, steps) && states[|steps|] == s
  }

  lemma InitialIsReachable(c: Codec, s: State)
    requires Injective(c) && Initial(c, s)
    ensures Reachable(c, s)
  {
    var states, steps := [s], [];
    assert Run(c, states, steps) && states[|steps|] == s;
  }

  lemma StepIsReachable(c: Codec, s: State, step: Step, t: State)
    requires Reachable(c, s) && Enabled(c, s, step) && t == Do(c, s, step)
    ensures Reachable(c, t)
  {
    var states, steps :| Run(c, states, steps) && states[|steps|] == s;
    var longer, more := states + [t], steps + [step];
    forall i | 0 <= i < |more|
      ensures StepAt(c, longer, more, i)
    {
      assert i < |steps| ==> StepAt(c, states, steps, i);
    }
    assert Run(c, longer, more) && longer[|more|] == t;
  }

  /** The process does not stand in the way of preparing another manifest, of another provider. */
  predicate OutOfTheWay(c: Codec, pc: Pc, d: Digest, bytes: Bytes) {
    !HoldsExclusive(pc) && (HoldsManifest(pc) ==> pc.d != d)
    && (HoldsProvider(pc) ==> c.decode(pc.bytes).provider != c.decode(bytes).provider)
  }

  function With(s: State, p: Pid, pc: Pc): State {
    s.(procs := s.procs[p := pc])
  }

  /** The steps of a process on its way to its provider's lock. */
  predicate OnTheWay(p: Pid, d: Digest, bytes: Bytes, step: Step, from: Pc, to: Pc) {
    || (from == Start(d, true) && step == LockShared(p) && to == Shared(d, true))
    || (from == Shared(d, true) && step == LockManifest(p) && to == Cached(d, true))
    || (from == Cached(d, true) && step == UseAdmitted(p) && to == Admitted(d, bytes))
    || (from == Admitted(d, bytes) && step == Mount(p) && to == ProviderWanted(d, bytes))
    || (from == ProviderWanted(d, bytes) && step == LockProvider(p) && to == ProviderLocked(d, bytes))
  }

  lemma Advance(c: Codec, s: State, p: Pid, d: Digest, bytes: Bytes, step: Step, from: Pc, to: Pc)
    requires Reachable(c, With(s, p, from)) && Holds(s.manifests, d, bytes) && c.decode(bytes).hostExtension
    requires forall q :: q in s.procs && q != p ==> OutOfTheWay(c, s.procs[q], d, bytes)
    requires OnTheWay(p, d, bytes, step, from, to)
    ensures Reachable(c, With(s, p, to))
  {
    assert With(s, p, from).procs[p := to] == With(s, p, to).procs;
    StepIsReachable(c, With(s, p, from), step, With(s, p, to));
  }

  /** A cached host extension gets as far as its provider's lock. */
  lemma ReachesProviderLock(c: Codec, s: State, p: Pid, d: Digest, bytes: Bytes)
    requires Reachable(c, s) && p !in s.procs && Holds(s.manifests, d, bytes) && c.decode(bytes).hostExtension
    requires forall q :: q in s.procs ==> OutOfTheWay(c, s.procs[q], d, bytes)
    ensures Reachable(c, With(s, p, ProviderLocked(d, bytes)))
  {
    StepIsReachable(c, s, Arrive(p, d, true), With(s, p, Start(d, true)));
    Advance(c, s, p, d, bytes, LockShared(p), Start(d, true), Shared(d, true));
    Advance(c, s, p, d, bytes, LockManifest(p), Shared(d, true), Cached(d, true));
    Advance(c, s, p, d, bytes, UseAdmitted(p), Cached(d, true), Admitted(d, bytes));
    Advance(c, s, p, d, bytes, Mount(p), Admitted(d, bytes), ProviderWanted(d, bytes));
    Advance(c, s, p, d, bytes, LockProvider(p), ProviderWanted(d, bytes), ProviderLocked(d, bytes));
  }

  /** Two host extensions with one layer each, of different providers. */
  function Example(): Codec {
    Codec((b: Bytes) => b, (b: Bytes) => 0, (b: Bytes) => Manifest([Layer(7, None, 0, 0)], 0, b, true))
  }

  function ExampleState(procs: map<Pid, Pc>, orphanedHooks: nat): State {
    State(map[1 := 1, 2 := 2], map[7 := 7], map[], procs, orphanedHooks)
  }

  lemma ExampleBegins()
    ensures Reachable(Example(), ExampleState(map[1 := ProviderLocked(1, 1)], 0))
  {
    var s := ExampleState(map[], 0);
    assert StoreOk(Example(), s.manifests, s.blobs);
    InitialIsReachable(Example(), s);
    ReachesProviderLock(Example(), s, 1, 1, 1);
  }

  lemma ExampleFirstHook()
    ensures Reachable(Example(), ExampleState(map[1 := HookRuns(1, 1)], 0))
  {
    ExampleBegins();
    var s := ExampleState(map[1 := ProviderLocked(1, 1)], 0);
    assert s.procs[1 := HookRuns(1, 1)] == map[1 := HookRuns(1, 1)];
    StepIsReachable(Example(), s, StartHook(1), ExampleState(map[1 := HookRuns(1, 1)], 0));
  }

  lemma ExampleSecondWaits()
    ensures Reachable(Example(), ExampleState(map[1 := HookRuns(1, 1), 2 := ProviderLocked(2, 2)], 0))
  {
    ExampleFirstHook();
    var s := ExampleState(map[1 := HookRuns(1, 1)], 0);
    ReachesProviderLock(Example(), s, 2, 2, 2);
    assert s.procs[2 := ProviderLocked(2, 2)] == map[1 := HookRuns(1, 1), 2 := ProviderLocked(2, 2)];
  }

  lemma ExampleFirstDies()
    ensures Reachable(Example(), ExampleState(map[2 := ProviderLocked(2, 2)], 1))
  {
    ExampleSecondWaits();
    var s := ExampleState(map[1 := HookRuns(1, 1), 2 := ProviderLocked(2, 2)], 0);
    assert s.procs - {1} == map[2 := ProviderLocked(2, 2)];
    StepIsReachable(Example(), s, Die(1), ExampleState(map[2 := ProviderLocked(2, 2)], 1));
  }

  /** Such an overlap does happen: a store with two cached extensions leads to it. */
  lemma OverlapIsReachable()
    ensures Reachable(Example(), ExampleState(map[2 := HookRuns(2, 2)], 1))
    ensures RunningHooks(ExampleState(map[2 := HookRuns(2, 2)], 1)) == 2
  {
    ExampleFirstDies();
    var s := ExampleState(map[2 := ProviderLocked(2, 2)], 1);
    assert LiveHooks(ExampleState(map[2 := HookRuns(2, 2)], 1)) == {2};
    assert s.procs[2 := HookRuns(2, 2)] == map[2 := HookRuns(2, 2)];
    StepIsReachable(Example(), s, StartHook(2), ExampleState(map[2 := HookRuns(2, 2)], 1));
  }
}
