/**
  What holds over every run of the artifact protocol: whole manifests, bounded
  admissions, exclusive hooks and fixed active providers.
*/
module ArtifactRuns {
  import opened Sequences
  import opened Artifacts
  import Collection

  /** A store with nothing half-admitted, before any process of this boot. */
  ghost predicate Initial(c: Codec, s: State) {
    StoreOk(c, s.manifests, s.blobs) && s.active == map[] && s.procs == map[] && s.orphanedHooks == 0
  }

  ghost predicate StepAt(c: Codec, states: seq<State>, steps: seq<Step>, i: nat)
    requires i < |steps| < |states|
  {
    Enabled(c, states[i], steps[i]) && states[i + 1] == Do(c, states[i], steps[i])
  }

  ghost predicate Run(c: Codec, states: seq<State>, steps: seq<Step>) {
    && Injective(c) && |states| == |steps| + 1 && Initial(c, states[0])
    && forall i :: 0 <= i < |steps| ==> StepAt(c, states, steps, i)
  }

  lemma {:induction false} RunInv(c: Codec, states: seq<State>, steps: seq<Step>, k: nat)
    requires Run(c, states, steps) && k < |states|
    ensures Inv(c, states[k])
  {
    if k > 0 {
      RunInv(c, states, steps, k - 1);
      assert StepAt(c, states, steps, k - 1);
      InvKept(c, states[k - 1], steps[k - 1]);
    }
  }

  /**
    In every interleaving of preparations and collections, and after a process died at
    any point: every readable manifest is the one its digest names, and each of its
    layers is in the store with the right digest and size.
  */
  lemma ReadableManifestsAreWhole(c: Codec, states: seq<State>, steps: seq<Step>, k: nat, d: Digest, layer: Layer)
    requires Run(c, states, steps) && k < |states| && d in states[k].manifests
    requires layer in c.decode(states[k].manifests[d]).layers
    ensures c.hash(states[k].manifests[d]) == d
    ensures layer.digest in states[k].blobs && c.hash(states[k].blobs[layer.digest]) == layer.digest
    ensures layer.size.Some? ==> c.length(states[k].blobs[layer.digest]) == layer.size.value
  {
    RunInv(c, states, steps, k);
    assert ManifestOk(c, states[k].blobs, d, states[k].manifests[d]);
    assert Present(c, states[k].blobs, layer);
  }

  /** At most two admissions are under way at once. */
  lemma AtMostTwoAdmissions(c: Codec, states: seq<State>, steps: seq<Step>, k: nat)
    requires Run(c, states, steps) && k < |states|
    ensures |set p | p in states[k].procs && HoldsSlot(states[k].procs[p])| <= SLOTS
  {
    RunInv(c, states, steps, k);
    var procs := states[k].procs;
    var holders := set p | p in procs && HoldsSlot(procs[p]);
    var slots := SlotsOf(procs, holders);
    forall p: Pid | p in holders
      ensures procs[p].slot < SLOTS
    {
      assert ProcOk(c, states[k].manifests, states[k].blobs, states[k].active, procs[p]);
    }
    assert slots <= {0, 1};
    SubsetSize(slots, {0, 1});
    SlotsApart(c, procs, holders);
  }

  function SlotsOf(procs: map<Pid, Pc>, holders: set<Pid>): set<nat> {
    set p | p in holders && p in procs && HoldsSlot(procs[p]) :: procs[p].slot
  }

  lemma {:induction false} SlotsApart(c: Codec, procs: map<Pid, Pc>, holders: set<Pid>)
    requires Exclusion(c, procs) && forall p :: p in holders ==> p in procs && HoldsSlot(procs[p])
    ensures |holders| == |SlotsOf(procs, holders)|
  {
    if holders != {} {
      var p :| p in holders;
      var rest := holders - {p};
      SlotsApart(c, procs, rest);
      forall q | q in rest
        ensures procs[q].slot != procs[p].slot
      {
        assert !Clash(c, procs[p], procs[q]);
      }
      assert SlotsOf(procs, holders) == SlotsOf(procs, rest) + {procs[p].slot};
    }
  }

  /** No two processes run an activation hook at once, of whichever providers. */
  lemma OneHookAtATime(c: Codec, states: seq<State>, steps: seq<Step>, k: nat, p: Pid, q: Pid)
    requires Run(c, states, steps) && k < |states|
    requires p in states[k].procs && states[k].procs[p].HookRuns? && q in states[k].procs && states[k].procs[q].HookRuns?
    ensures p == q
  {
    RunInv(c, states, steps, k);
    assert Clash(c, states[k].procs[p], states[k].procs[q]);
  }

  /** Step `j` kills a process whose hook runs; the hook goes on. */
  ghost predicate HookOutlives(states: seq<State>, steps: seq<Step>, j: nat)
    requires j < |steps| < |states|
  {
    steps[j].Die? && steps[j].p in states[j].procs && states[j].procs[steps[j].p].HookRuns?
  }

  function LiveHooks(s: State): set<Pid> {
    set p | p in s.procs && s.procs[p].HookRuns?
  }

  /** All running hooks, those without a process included. */
  function RunningHooks(s: State): nat {
    |LiveHooks(s)| + s.orphanedHooks
  }

  lemma OrphansOnlyByDeath(c: Codec, s: State, step: Step)
    requires Enabled(c, s, step) && s.orphanedHooks == 0 && Do(c, s, step).orphanedHooks > 0
    ensures step.Die? && step.p in s.procs && s.procs[step.p].HookRuns?
  {
  }

  lemma {:induction false} NoOrphansBefore(c: Codec, states: seq<State>, steps: seq<Step>, b: nat, k: nat)
    requires Run(c, states, steps) && b <= k < |states| && (b == 0 || steps[b - 1].Reboot?)
    requires forall j :: b <= j < k ==> !HookOutlives(states, steps, j)
    ensures states[k].orphanedHooks == 0
    decreases k
  {
    if b < k {
      NoOrphansBefore(c, states, steps, b, k - 1);
      assert StepAt(c, states, steps, k - 1) && !HookOutlives(states, steps, k - 1);
      if states[k].orphanedHooks > 0 {
        OrphansOnlyByDeath(c, states[k - 1], steps[k - 1]);
      }
    } else if b > 0 {
      assert StepAt(c, states, steps, b - 1);
    }
  }

  lemma AtMostOne(hooks: set<Pid>)
    requires forall p, q :: p in hooks && q in hooks ==> p == q
    ensures |hooks| <= 1
  {
    if hooks != {} {
      var p :| p in hooks;
      assert hooks == {p};
    }
  }

  /**
    At most one hook runs, orphans included, as long as no process has died under its
    hook since a boot; so two hooks run at once only after such a death. After one they
    can: see `OrphanedHookMayOverlap`.
  */
  lemma HooksOverlapOnlyAfterDeath(c: Codec, states: seq<State>, steps: seq<Step>, b: nat, k: nat)
    requires Run(c, states, steps) && b <= k < |states| && (b == 0 || steps[b - 1].Reboot?)
    ensures (forall j :: b <= j < k ==> !HookOutlives(states, steps, j)) ==> states[k].orphanedHooks == 0 && RunningHooks(states[k]) <= 1
    ensures RunningHooks(states[k]) > 1 ==> exists j :: b <= j < k && HookOutlives(states, steps, j)
  {
    forall p, q | p in LiveHooks(states[k]) && q in LiveHooks(states[k])
      ensures p == q
    {
      OneHookAtATime(c, states, steps, k, p, q);
    }
    AtMostOne(LiveHooks(states[k]));
    if forall j :: b <= j < k ==> !HookOutlives(states, steps, j) {
      NoOrphansBefore(c, states, steps, b, k);
    }
  }

  lemma OrphanedHookMayOverlap(c: Codec, s: State, p: Pid, q: Pid)
    requires Inv(c, s) && p in s.procs && q in s.procs && p != q
    requires s.procs[p].HookRuns? && s.procs[q].ProviderLocked? && c.decode(s.procs[q].bytes).provider !in s.active
    ensures Enabled(c, s, Die(p)) && Enabled(c, Do(c, s, Die(p)), StartHook(q))
    ensures var t := Do(c, Do(c, s, Die(p)), StartHook(q)); t.orphanedHooks > 0 && t.procs[q].HookRuns?
  {
    var t, hook := Do(c, s, Die(p)), HookRuns(s.procs[q].d, s.procs[q].bytes);
    forall r: Pid | r in t.procs && r != q
      ensures !Clash(c, hook, t.procs[r])
    {
      HookMayStart(c, s.procs[p], s.procs[q], s.procs[r], hook);
    }
    assert Free(c, t, q, hook);
  }

  lemma HookMayStart(c: Codec, running: Pc, waiting: Pc, other: Pc, hook: Pc)
    requires running.HookRuns? && waiting.ProviderLocked? && hook == HookRuns(waiting.d, waiting.bytes)
    requires !Clash(c, running, other) && !Clash(c, waiting, other)
    ensures !Clash(c, hook, other)
  {
  }

  /** What a collection retains, when it protects the active digests, is what the protocol lets it keep. */
  lemma CollectionMayBegin(c: Codec, s: State, p: Pid, entries: seq<Collection.Entry>, protected: set<Digest>)
    requires p !in s.procs && s.active.Values <= protected
    requires Free(c, s, p, Collecting(Collection.Retained(entries, protected)))
    ensures Enabled(c, s, Collect(p, Collection.Retained(entries, protected)))
  {
    assert protected <= Collection.Retained(entries, protected);
  }

  /** A step other than a reboot neither drops nor changes an active provider. */
  lemma ActiveKept(c: Codec, s: State, step: Step, name: Provider)
    requires Inv(c, s) && Enabled(c, s, step) && !step.Reboot? && name in s.active
    ensures name in Do(c, s, step).active && Do(c, s, step).active[name] == s.active[name]
  {
    if step.RecordActive? {
      assert ProcOk(c, s.manifests, s.blobs, s.active, PcOf(s, step.p));
    }
  }

  /** Only two kinds of step touch the manifests. */
  lemma ManifestsUntouched(c: Codec, s: State, step: Step)
    requires Enabled(c, s, step) && !step.WriteManifest? && !step.RemoveManifest?
    ensures Do(c, s, step).manifests == s.manifests
  {
    if Actor(step).Some? {
      assert Written(c, s, step, PcOf(s, step.p)).manifests == s.manifests;
    }
  }

  /** Nor does it take away or change the manifest of one. */
  lemma ActiveManifestKept(c: Codec, s: State, step: Step, name: Provider)
    requires Injective(c) && Inv(c, s) && Enabled(c, s, step) && name in s.active
    ensures s.active[name] in s.manifests && s.active[name] in Do(c, s, step).manifests
    ensures Do(c, s, step).manifests[s.active[name]] == s.manifests[s.active[name]]
  {
    if step.WriteManifest? {
      WrittenIsTheSame(c, s, step.p);
    } else if step.RemoveManifest? {
      ActiveIsRetained(c, s, step.p, name);
    } else {
      ManifestsUntouched(c, s, step);
    }
  }

  lemma ActiveIsRetained(c: Codec, s: State, p: Pid, name: Provider)
    requires Inv(c, s) && p in s.procs && s.procs[p].Collecting? && name in s.active
    ensures s.active[name] in s.procs[p].retained
  {
    assert ProcOk(c, s.manifests, s.blobs, s.active, s.procs[p]);
    assert s.active[name] in s.active.Values;
  }

  lemma WrittenIsTheSame(c: Codec, s: State, p: Pid)
    requires Injective(c) && Inv(c, s) && p in s.procs && s.procs[p].Admitting?
    ensures forall x :: x in s.manifests ==> s.manifests[s.procs[p].d := s.procs[p].bytes][x] == s.manifests[x]
  {
    assert ProcOk(c, s.manifests, s.blobs, s.active, s.procs[p]);
    ManifestsGrow(c, s.manifests, s.blobs, s.procs[p].d, s.procs[p].bytes);
  }

  /**
    Within one boot the manifest of an active provider is never collected, and what is
    recorded as active, down to its payload, never changes.
  */
  lemma {:induction false} ActivePayloadIsFixed(c: Codec, states: seq<State>, steps: seq<Step>, i: nat, k: nat, name: Provider)
    requires Run(c, states, steps) && i <= k < |states| && name in states[i].active
    requires forall j :: i <= j < k ==> !steps[j].Reboot?
    ensures name in states[k].active && states[k].active[name] == states[i].active[name]
    ensures states[i].active[name] in states[i].manifests && states[i].active[name] in states[k].manifests
    ensures states[k].manifests[states[i].active[name]] == states[i].manifests[states[i].active[name]]
    decreases k
  {
    if i == k {
      RunInv(c, states, steps, k);
    } else {
      ActivePayloadIsFixed(c, states, steps, i, k - 1, name);
      RunInv(c, states, steps, k - 1);
      assert StepAt(c, states, steps, k - 1);
      ActiveKept(c, states[k - 1], steps[k - 1], name);
      ActiveManifestKept(c, states[k - 1], steps[k - 1], name);
    }
  }

  /** A host extension reported ready is active, itself or by an equal payload. */
  lemma ReadyMeansActive(c: Codec, states: seq<State>, steps: seq<Step>, k: nat, p: Pid)
    requires Run(c, states, steps) && k < |states| && p in states[k].procs && states[k].procs[p].Activated?
    ensures var s, pc := states[k], states[k].procs[p];
            && Holds(s.manifests, pc.d, pc.bytes)
            && (c.decode(pc.bytes).hostExtension ==> AlreadyActive(c, s.manifests, s.active, pc.d, pc.bytes))
  {
    RunInv(c, states, steps, k);
    assert ProcOk(c, states[k].manifests, states[k].blobs, states[k].active, states[k].procs[p]);
  }

  /** A digest admitted again after a collection is the same manifest. */
  lemma ReadmittedIsTheSame(c: Codec, states: seq<State>, steps: seq<Step>, i: nat, k: nat, d: Digest)
    requires Run(c, states, steps) && i < |states| && k < |states|
    requires d in states[i].manifests && d in states[k].manifests
    ensures states[i].manifests[d] == states[k].manifests[d]
  {
    RunInv(c, states, steps, i);
    RunInv(c, states, steps, k);
    assert ManifestOk(c, states[i].blobs, d, states[i].manifests[d]);
    assert ManifestOk(c, states[k].blobs, d, states[k].manifests[d]);
  }
}
