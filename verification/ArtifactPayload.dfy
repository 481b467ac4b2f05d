/**
  What the artifact protocol promises, down to the fields: when an extension counts as
  active, which hook made it so, which locks exclude whom, and who may download.
 */
module ArtifactPayload {
  import opened Sequences
  import opened Artifacts
  import opened ArtifactRuns

  // ---- Active with this payload ------------------------------------------------------------

  /** Config, and every layer's digest, size and media type in their order, are equal. */
  ghost predicate EqualFields(a: Manifest, b: Manifest) {
    && a.config == b.config && |a.layers| == |b.layers|
    && (forall i :: 0 <= i < |a.layers| ==> a.layers[i].digest == b.layers[i].digest)
    && (forall i :: 0 <= i < |a.layers| ==> a.layers[i].size == b.layers[i].size)
    && (forall i :: 0 <= i < |a.layers| ==> a.layers[i].mediaType == b.layers[i].mediaType)
  }

  /**
    A host extension reported ready: its provider is active, with this very digest, or
    with a manifest of the same config and the same layers, field by field.
  */
  lemma ReadyHasActivePayload(c: Codec, states: seq<State>, steps: seq<Step>, k: nat, p: Pid)
    requires Run(c, states, steps) && k < |states| && p in states[k].procs && states[k].procs[p].Activated?
    requires c.decode(states[k].procs[p].bytes).hostExtension
    ensures var s, d, m := states[k], states[k].procs[p].d, c.decode(states[k].procs[p].bytes);
            && d in s.manifests && s.manifests[d] == states[k].procs[p].bytes && m.provider in s.active
            && (s.active[m.provider] == d
                || (s.active[m.provider] in s.manifests && EqualFields(c.decode(s.manifests[s.active[m.provider]]), m)))
  {
    ReadyMeansActive(c, states, steps, k, p);
  }

  /**
    At its provider's lock a process finds its extension active exactly when the active
    digest is its own, or that manifest is readable and equal in every field; it starts
    the hook only if no digest is active, and no other hook runs. With another payload
    active, it can do neither.
  */
  lemma AtProviderLock(c: Codec, s: State, p: Pid)
    requires p in s.procs && s.procs[p].ProviderLocked?
    ensures var d, m := s.procs[p].d, c.decode(s.procs[p].bytes);
            && (Enabled(c, s, FindActive(p)) <==>
                 m.provider in s.active
                 && (s.active[m.provider] == d
                     || (s.active[m.provider] in s.manifests && EqualFields(c.decode(s.manifests[s.active[m.provider]]), m))))
            && (Enabled(c, s, StartHook(p)) ==> m.provider !in s.active)
  {
    var m := c.decode(s.procs[p].bytes);
    if m.provider in s.active && s.active[m.provider] in s.manifests {
      EqualIsSame(c.decode(s.manifests[s.active[m.provider]]), m);
    }
  }

  lemma EqualIsSame(a: Manifest, b: Manifest)
    ensures EqualFields(a, b) <==> SamePayload(a, b)
  {
  }

  /** With a different payload active, the process can only give up. */
  lemma DifferentIsRefused(c: Codec, s: State, p: Pid, step: Step)
    requires p in s.procs && s.procs[p].ProviderLocked? && Enabled(c, s, step) && Actor(step) == Some(p)
    requires var m := c.decode(s.procs[p].bytes);
             && m.provider in s.active && s.active[m.provider] != s.procs[p].d && s.active[m.provider] in s.manifests
             && !EqualFields(c.decode(s.manifests[s.active[m.provider]]), m)
    ensures step == Fail(p) || step == Die(p)
    ensures p !in Do(c, s, step).procs && Do(c, s, step).active == s.active
  {
    AtProviderLock(c, s, p);
  }

  // ---- The hook behind an active provider --------------------------------------------------------

  /** Process `p` starts the hook of this manifest with step `h`, and the hook ends with step `e`. */
  ghost predicate RunsHook(states: seq<State>, steps: seq<Step>, p: Pid, d: Digest, bytes: Bytes, h: nat, e: nat)
    requires |steps| < |states|
  {
    && h < e < |steps|
    && steps[h] == StartHook(p) && p in states[h].procs && states[h].procs[p] == ProviderLocked(d, bytes)
    && steps[e] == EndHook(p) && p in states[e].procs && states[e].procs[p] == HookRuns(d, bytes)
  }

  lemma OthersStay(c: Codec, s: State, step: Step, p: Pid)
    requires Enabled(c, s, step) && p in Do(c, s, step).procs && Actor(step) != Some(p)
    ensures p in s.procs && Do(c, s, step).procs[p] == s.procs[p]
  {
    if Actor(step).Some? {
      assert Do(c, s, step).procs == Moved(s.procs, step.p, Next(c, s, step, PcOf(s, step.p)));
    }
  }

  lemma Acts(c: Codec, s: State, step: Step, p: Pid)
    requires Enabled(c, s, step) && p in Do(c, s, step).procs && Actor(step) == Some(p)
    ensures Next(c, s, step, PcOf(s, p)) == Some(Do(c, s, step).procs[p])
    ensures !step.Arrive? && !step.Collect? ==> p in s.procs && PcOf(s, p) == s.procs[p]
  {
    assert Do(c, s, step).procs == Moved(s.procs, step.p, Next(c, s, step, PcOf(s, step.p)));
  }

  lemma OnlyHooksAdvance(c: Codec, s: State, step: Step, pc: Pc, now: Pc)
    requires Actor(step).Some? && Ready(c, s, step, pc) && Next(c, s, step, pc) == Some(now)
    ensures now.HookRuns? ==> now == pc || (step.StartHook? && pc == ProviderLocked(now.d, now.bytes))
    ensures now.HookDone? ==> now == pc || (step.EndHook? && pc == HookRuns(now.d, now.bytes))
    ensures now.HookRuns? || now.HookDone? ==> !step.Arrive? && !step.Collect?
  {
  }

  lemma HookMoves(c: Codec, s: State, step: Step, p: Pid)
    requires Enabled(c, s, step) && p in Do(c, s, step).procs && (Do(c, s, step).procs[p].HookRuns? || Do(c, s, step).procs[p].HookDone?)
    ensures p in s.procs
    ensures var was, now := s.procs[p], Do(c, s, step).procs[p];
            || was == now
            || (if now.HookRuns? then step == StartHook(p) && was == ProviderLocked(now.d, now.bytes)
                else step == EndHook(p) && was == HookRuns(now.d, now.bytes))
  {
    if Actor(step) == Some(p) {
      Acts(c, s, step, p);
      OnlyHooksAdvance(c, s, step, PcOf(s, p), Do(c, s, step).procs[p]);
    } else {
      OthersStay(c, s, step, p);
    }
  }

  lemma {:induction false} HookWasStarted(c: Codec, states: seq<State>, steps: seq<Step>, k: nat, p: Pid) returns (h: nat)
    requires Run(c, states, steps) && k < |states| && p in states[k].procs && states[k].procs[p].HookRuns?
    ensures h < k && steps[h] == StartHook(p) && p in states[h].procs
    ensures states[h].procs[p] == ProviderLocked(states[k].procs[p].d, states[k].procs[p].bytes)
  {
    assert StepAt(c, states, steps, k - 1);
    HookMoves(c, states[k - 1], steps[k - 1], p);
    if states[k - 1].procs[p].HookRuns? {
      h := HookWasStarted(c, states, steps, k - 1, p);
    } else {
      h := k - 1;
    }
  }

  lemma {:induction false} HookHasRun(c: Codec, states: seq<State>, steps: seq<Step>, k: nat, p: Pid) returns (h: nat, e: nat)
    requires Run(c, states, steps) && k < |states| && p in states[k].procs && states[k].procs[p].HookDone?
    ensures e < k && RunsHook(states, steps, p, states[k].procs[p].d, states[k].procs[p].bytes, h, e)
  {
    assert StepAt(c, states, steps, k - 1);
    HookMoves(c, states[k - 1], steps[k - 1], p);
    if states[k - 1].procs[p].HookDone? {
      h, e := HookHasRun(c, states, steps, k - 1, p);
    } else {
      h := HookWasStarted(c, states, steps, k - 1, p);
      e := k - 1;
    }
  }

  lemma ActiveMoves(c: Codec, s: State, step: Step, name: Provider)
    requires Enabled(c, s, step) && name in Do(c, s, step).active
    ensures || (name in s.active && Do(c, s, step).active[name] == s.active[name] && !step.Reboot?)
            || (step.RecordActive? && step.p in s.procs && s.procs[step.p].HookDone?
                && c.decode(s.procs[step.p].bytes).provider == name && Do(c, s, step).active[name] == s.procs[step.p].d)
  {
  }

  /** An active provider was recorded, with its digest, by a process whose own hook for that digest had run to its end. */
  lemma {:induction false} ActiveRanItsHook(c: Codec, states: seq<State>, steps: seq<Step>, k: nat, name: Provider)
    returns (p: Pid, bytes: Bytes, h: nat, e: nat, r: nat)
    requires Run(c, states, steps) && k < |states| && name in states[k].active
    ensures e < r < k && RunsHook(states, steps, p, states[k].active[name], bytes, h, e) && steps[r] == RecordActive(p)
    ensures c.decode(bytes).provider == name && c.hash(bytes) == states[k].active[name]
  {
    assert StepAt(c, states, steps, k - 1);
    ActiveMoves(c, states[k - 1], steps[k - 1], name);
    var s := states[k - 1];
    if name in s.active && states[k].active[name] == s.active[name] && !steps[k - 1].Reboot? {
      p, bytes, h, e, r := ActiveRanItsHook(c, states, steps, k - 1, name);
    } else {
      p, r := steps[k - 1].p, k - 1;
      bytes := s.procs[p].bytes;
      h, e := HookHasRun(c, states, steps, k - 1, p);
      DoneIsHashed(c, states, steps, k - 1, p);
    }
  }

  lemma DoneIsHashed(c: Codec, states: seq<State>, steps: seq<Step>, k: nat, p: Pid)
    requires Run(c, states, steps) && k < |states| && p in states[k].procs && states[k].procs[p].HookDone?
    ensures c.hash(states[k].procs[p].bytes) == states[k].procs[p].d
  {
    RunInv(c, states, steps, k);
    var s := states[k];
    assert ProcOk(c, s.manifests, s.blobs, s.active, s.procs[p]);
    assert ManifestOk(c, s.blobs, s.procs[p].d, s.procs[p].bytes);
  }

  // ---- Locks --------------------------------------------------------------------------------------

  /** At work on a manifest, under its lock. */
  predicate AtWork(pc: Pc) {
    match pc
    case Start(_, _) => false
    case Shared(_, _) => false
    case Collecting(_) => false
    case Sweeping(_) => false
    case _ => true
  }

  /** The layer a process is fetching or placing. */
  function LayerInHand(c: Codec, pc: Pc): Option<Digest> {
    match pc
    case BlobLocked(_, _, bytes, done) => if done < |c.decode(bytes).layers| then Some(c.decode(bytes).layers[done].digest) else None
    case Downloaded(_, _, bytes, done, _) => if done < |c.decode(bytes).layers| then Some(c.decode(bytes).layers[done].digest) else None
    case _ => None
  }

  function SlotInHand(pc: Pc): Option<nat> {
    match pc
    case Slotted(_, slot) => Some(slot)
    case Admitting(_, slot, _, _) => Some(slot)
    case BlobLocked(_, slot, _, _) => Some(slot)
    case Downloaded(_, slot, _, _, _) => Some(slot)
    case _ => None
  }

  /** The provider a process is activating. */
  function ProviderInHand(c: Codec, pc: Pc): Option<Provider> {
    match pc
    case ProviderLocked(_, bytes) => Some(c.decode(bytes).provider)
    case HookRuns(_, bytes) => Some(c.decode(bytes).provider)
    case HookDone(_, bytes) => Some(c.decode(bytes).provider)
    case _ => None
  }

  /**
    Of two processes at any moment: no two work on one manifest, one admission slot, one
    layer or one provider; beside a collection no other process is past its start; and
    there are two admission slots.
  */
  lemma LocksExclude(c: Codec, states: seq<State>, steps: seq<Step>, k: nat, p: Pid, q: Pid)
    requires Run(c, states, steps) && k < |states| && p in states[k].procs && q in states[k].procs && p != q
    ensures var a, b := states[k].procs[p], states[k].procs[q];
            && (AtWork(a) && AtWork(b) ==> a.d != b.d)
            && (SlotInHand(a).Some? ==> SlotInHand(a) != SlotInHand(b) && SlotInHand(a).value < 2)
            && (LayerInHand(c, a).Some? ==> LayerInHand(c, a) != LayerInHand(c, b))
            && (ProviderInHand(c, a).Some? ==> ProviderInHand(c, a) != ProviderInHand(c, b))
            && (a.Collecting? || a.Sweeping? ==> b.Start?)
  {
    RunInv(c, states, steps, k);
    assert !Clash(c, states[k].procs[p], states[k].procs[q]);
    assert ProcOk(c, states[k].manifests, states[k].blobs, states[k].active, states[k].procs[p]);
  }

  // ---- Downloads --------------------------------------------------------------------------------------

  lemma OnlyArrivalStarts(c: Codec, s: State, step: Step, pc: Pc, now: Pc)
    requires Actor(step).Some? && Ready(c, s, step, pc) && Next(c, s, step, pc) == Some(now) && now.Start?
    ensures (step.Arrive? && now == Start(step.d, step.cachedOnly)) || (now == pc && (step.RemoveManifest? || step.RemoveBlob?))
  {
  }

  lemma StartMoves(c: Codec, s: State, step: Step, p: Pid)
    requires Enabled(c, s, step) && p in Do(c, s, step).procs && Do(c, s, step).procs[p].Start?
    ensures var now := Do(c, s, step).procs[p]; step == Arrive(p, now.d, now.cachedOnly) || (p in s.procs && s.procs[p] == now)
  {
    if Actor(step) == Some(p) {
      assert Next(c, s, step, PcOf(s, p)) == Some(Do(c, s, step).procs[p]);
      OnlyArrivalStarts(c, s, step, PcOf(s, p), Do(c, s, step).procs[p]);
    } else {
      OthersStay(c, s, step, p);
    }
  }

  lemma OnlyLocksAdvance(c: Codec, s: State, step: Step, pc: Pc, now: Pc)
    requires Actor(step).Some? && Ready(c, s, step, pc) && Next(c, s, step, pc) == Some(now)
    ensures now.Shared? ==> now == pc || pc == Start(now.d, now.cachedOnly)
    ensures now.Cached? ==> now == pc || pc == Shared(now.d, now.cachedOnly)
  {
  }

  lemma LocksAdvance(c: Codec, s: State, step: Step, p: Pid)
    requires Enabled(c, s, step) && p in Do(c, s, step).procs && (Do(c, s, step).procs[p].Shared? || Do(c, s, step).procs[p].Cached?)
    ensures p in s.procs
    ensures var was, now := s.procs[p], Do(c, s, step).procs[p];
            was == now || was == if now.Shared? then Start(now.d, now.cachedOnly) else Shared(now.d, now.cachedOnly)
  {
    if Actor(step) == Some(p) {
      Acts(c, s, step, p);
      OnlyLocksAdvance(c, s, step, PcOf(s, p), Do(c, s, step).procs[p]);
    } else {
      OthersStay(c, s, step, p);
    }
  }

  lemma {:induction false} ArrivedAs(c: Codec, states: seq<State>, steps: seq<Step>, k: nat, p: Pid) returns (i: nat)
    requires Run(c, states, steps) && k < |states| && p in states[k].procs
    requires states[k].procs[p].Start? || states[k].procs[p].Shared? || states[k].procs[p].Cached?
    ensures i < k && steps[i] == Arrive(p, states[k].procs[p].d, states[k].procs[p].cachedOnly)
  {
    assert StepAt(c, states, steps, k - 1);
    if states[k].procs[p].Start? {
      StartMoves(c, states[k - 1], steps[k - 1], p);
    } else {
      LocksAdvance(c, states[k - 1], steps[k - 1], p);
    }
    if steps[k - 1] == Arrive(p, states[k].procs[p].d, states[k].procs[p].cachedOnly) {
      i := k - 1;
    } else {
      i := ArrivedAs(c, states, steps, k - 1, p);
    }
  }

  /** A process goes on to download only if its manifest is missing and it did not arrive for cached ones only. */
  lemma OnlyOthersDownload(c: Codec, states: seq<State>, steps: seq<Step>, k: nat, p: Pid) returns (i: nat)
    requires Run(c, states, steps) && k < |steps| && steps[k] == MissCache(p) && StepAt(c, states, steps, k)
    ensures p in states[k].procs && states[k].procs[p].Cached? && states[k].procs[p].d !in states[k].manifests
    ensures i < k && steps[i] == Arrive(p, states[k].procs[p].d, false)
  {
    i := ArrivedAs(c, states, steps, k, p);
  }

  /** What is fetched is the manifest asked for, and what is downloaded is the layer it names, of the size it gives. */
  lemma FetchedIsWanted(c: Codec, s: State, step: Step)
    requires Inv(c, s) && Enabled(c, s, step)
    ensures step.FetchManifest? ==> c.hash(step.bytes) == s.procs[step.p].d && c.decode(step.bytes).layers != []
    ensures step.Download? ==>
              var pc := s.procs[step.p];
              pc.BlobLocked? && pc.done < |c.decode(pc.bytes).layers| &&
              var layer := c.decode(pc.bytes).layers[pc.done];
              c.hash(step.blob) == layer.digest && (layer.size.Some? ==> layer.size.value == c.length(step.blob))
    ensures step.WriteManifest? ==>
              var pc := s.procs[step.p];
              pc.Admitting? && pc.done >= |c.decode(pc.bytes).layers|
    ensures step.RemoveManifest? ==> step.d !in s.active.Values
  {
    if step.RemoveManifest? {
      assert ProcOk(c, s.manifests, s.blobs, s.active, s.procs[step.p]);
    }
  }

  // ---- Who runs hooks, and when blobs are swept ---------------------------------------------------------

  predicate Activating(pc: Pc) {
    pc.ProviderWanted? || pc.ProviderLocked? || pc.HookRuns? || pc.HookDone?
  }

  lemma OnlyMountsActivate(c: Codec, s: State, step: Step, pc: Pc, now: Pc)
    requires Actor(step).Some? && Ready(c, s, step, pc) && Next(c, s, step, pc) == Some(now)
    ensures Activating(now) ==> (Activating(pc) && now.bytes == pc.bytes) || c.decode(now.bytes).hostExtension
    ensures now.Collecting? ==> now == pc || (step.Collect? && now.retained == step.retained)
  {
  }

  /** Only host extensions ask for their provider's lock or run a hook. */
  lemma {:induction false} OnlyHostExtensionsActivate(c: Codec, states: seq<State>, steps: seq<Step>, k: nat, p: Pid)
    requires Run(c, states, steps) && k < |states| && p in states[k].procs && Activating(states[k].procs[p])
    ensures c.decode(states[k].procs[p].bytes).hostExtension
  {
    assert StepAt(c, states, steps, k - 1);
    var s, step := states[k - 1], steps[k - 1];
    if Actor(step) == Some(p) {
      Acts(c, s, step, p);
      OnlyMountsActivate(c, s, step, PcOf(s, p), states[k].procs[p]);
    } else {
      OthersStay(c, s, step, p);
    }
    if p in s.procs && Activating(s.procs[p]) {
      OnlyHostExtensionsActivate(c, states, steps, k - 1, p);
    }
  }

  lemma {:induction false} CollectionBegan(c: Codec, states: seq<State>, steps: seq<Step>, k: nat, p: Pid) returns (i: nat)
    requires Run(c, states, steps) && k < |states| && p in states[k].procs && states[k].procs[p].Collecting?
    ensures i < k && steps[i] == Collect(p, states[k].procs[p].retained) && states[i].active.Values <= states[k].procs[p].retained
  {
    assert StepAt(c, states, steps, k - 1);
    var s, step := states[k - 1], steps[k - 1];
    if Actor(step) == Some(p) {
      Acts(c, s, step, p);
      OnlyMountsActivate(c, s, step, PcOf(s, p), states[k].procs[p]);
    } else {
      OthersStay(c, s, step, p);
    }
    if step.Collect? && step.p == p {
      i := k - 1;
    } else {
      i := CollectionBegan(c, states, steps, k - 1, p);
    }
  }

  /** A collection that turns to the blobs has left no manifest but those it set out to retain, the active ones among them. */
  lemma SweepComesLast(c: Codec, states: seq<State>, steps: seq<Step>, k: nat, p: Pid) returns (i: nat, retained: set<Digest>)
    requires Run(c, states, steps) && k < |steps| && steps[k] == Sweep(p)
    ensures i < k && steps[i] == Collect(p, retained) && states[i].active.Values <= retained
    ensures forall d :: d in states[k].manifests ==> d in retained
  {
    assert StepAt(c, states, steps, k);
    i := CollectionBegan(c, states, steps, k, p);
    retained := states[k].procs[p].retained;
  }
}
