/**
  Concurrent admission, activation and collection of artifacts, as a step relation. A
  process may die between any two steps, which drops its locks; a reboot clears all
  that is kept in memory. Locks are read off the program counters.
*/
module Artifacts {
  import opened Sequences

  type Pid = nat
  type Digest = nat
  type Bytes = nat
  type Provider = nat

  /** A layer descriptor; the size is optional. */
  datatype Layer = Layer(digest: Digest, size: Option<nat>, mediaType: nat, annotations: nat)

  datatype Manifest = Manifest(layers: seq<Layer>, config: nat, provider: Provider, hostExtension: bool)

  /** `hash` and `length` of contents, and what a manifest's bytes say. */
  datatype Codec = Codec(hash: Bytes -> Digest, length: Bytes -> nat, decode: Bytes -> Manifest)

  ghost predicate Injective(c: Codec) {
    forall a, b :: c.hash(a) == c.hash(b) ==> a == b
  }

  const SLOTS: nat := 2

  /**
    Where a process stands. From `Shared` on it holds the collection lock, shared; from
    `Cached` on the lock of its manifest. `bytes` is the manifest it works with.
  */
  datatype Pc =
    | Start(d: Digest, cachedOnly: bool)
    | Shared(d: Digest, cachedOnly: bool)
    | Cached(d: Digest, cachedOnly: bool)
    | Waiting(d: Digest)
    | Slotted(d: Digest, slot: nat)
    | Admitting(d: Digest, slot: nat, bytes: Bytes, done: nat)
    | BlobLocked(d: Digest, slot: nat, bytes: Bytes, done: nat)
    | Downloaded(d: Digest, slot: nat, bytes: Bytes, done: nat, blob: Bytes)
    | Admitted(d: Digest, bytes: Bytes)
    | ProviderWanted(d: Digest, bytes: Bytes)
    | ProviderLocked(d: Digest, bytes: Bytes)
    | HookRuns(d: Digest, bytes: Bytes)
    | HookDone(d: Digest, bytes: Bytes)
    | Activated(d: Digest, bytes: Bytes)
    | Collecting(retained: set<Digest>)
    | Sweeping(referenced: set<Digest>)

  /** The persistent store, what lives until the next boot, and the processes. */
  datatype State = State(manifests: map<Digest, Bytes>, blobs: map<Digest, Bytes>,
                         active: map<Provider, Digest>, procs: map<Pid, Pc>, orphanedHooks: nat)

  datatype Step =
    | Arrive(p: Pid, d: Digest, cachedOnly: bool)
    | LockShared(p: Pid)
    | LockManifest(p: Pid)
    | UseAdmitted(p: Pid)
    | MissCache(p: Pid)
    | TakeSlot(p: Pid, slot: nat)
    | FetchManifest(p: Pid, bytes: Bytes)
    | LockBlob(p: Pid)
    | Download(p: Pid, blob: Bytes)
    | Place(p: Pid)
    | WriteManifest(p: Pid)
    | Mount(p: Pid)
    | LockProvider(p: Pid)
    | FindActive(p: Pid)
    | StartHook(p: Pid)
    | EndHook(p: Pid)
    | RecordActive(p: Pid)
    | Finish(p: Pid)
    | Collect(p: Pid, retained: set<Digest>)
    | RemoveManifest(p: Pid, d: Digest)
    | Sweep(p: Pid)
    | RemoveBlob(p: Pid, b: Digest)
    | Fail(p: Pid)
    | Die(p: Pid)
    | OrphanEnds
    | Reboot

  // ---- Locks ---------------------------------------------------------------------------------

  predicate HoldsExclusive(pc: Pc) { pc.Collecting? || pc.Sweeping? }

  predicate HoldsShared(pc: Pc) { !pc.Start? && !HoldsExclusive(pc) }

  predicate HoldsManifest(pc: Pc) { HoldsShared(pc) && !pc.Shared? }

  predicate HoldsSlot(pc: Pc) { pc.Slotted? || pc.Admitting? || pc.BlobLocked? || pc.Downloaded? }

  predicate HoldsBlob(pc: Pc) { pc.BlobLocked? || pc.Downloaded? }

  predicate HoldsProvider(pc: Pc) { pc.ProviderLocked? || pc.HookRuns? || pc.HookDone? }

  function NextLayer(c: Codec, pc: Pc): Option<Layer>
    requires pc.Admitting? || HoldsBlob(pc)
  {
    var layers := c.decode(pc.bytes).layers;
    if pc.done < |layers| then Some(layers[pc.done]) else None
  }

  /** Two processes hold the same exclusive lock. */
  predicate Clash(c: Codec, a: Pc, b: Pc) {
    || (HoldsExclusive(a) && !b.Start?)
    || (HoldsExclusive(b) && !a.Start?)
    || (HoldsManifest(a) && HoldsManifest(b) && a.d == b.d)
    || (HoldsSlot(a) && HoldsSlot(b) && a.slot == b.slot)
    || (HoldsBlob(a) && HoldsBlob(b) && NextLayer(c, a).Some? && NextLayer(c, b).Some?
        && NextLayer(c, a).value.digest == NextLayer(c, b).value.digest)
    || (HoldsProvider(a) && HoldsProvider(b) && c.decode(a.bytes).provider == c.decode(b.bytes).provider)
    || (a.HookRuns? && b.HookRuns?)
  }

  /** The locks that `pc` needs are free for the process: taking one blocks until then. */
  ghost predicate Free(c: Codec, s: State, p: Pid, pc: Pc) {
    forall q: Pid :: q in s.procs && q != p ==> !Clash(c, pc, s.procs[q])
  }

  // ---- Contents ----------------------------------------------------------------------------------

  /** The bytes match the descriptor's digest and, if given, its size. */
  predicate Fits(c: Codec, layer: Layer, bytes: Bytes) {
    c.hash(bytes) == layer.digest && (layer.size.Some? ==> layer.size.value == c.length(bytes))
  }

  predicate Present(c: Codec, blobs: map<Digest, Bytes>, layer: Layer) {
    layer.digest in blobs && Fits(c, layer, blobs[layer.digest])
  }

  /** Equal but for the annotations of layers and the manifest's outer metadata. */
  predicate SamePayload(a: Manifest, b: Manifest) {
    && a.config == b.config && |a.layers| == |b.layers|
    && forall i :: 0 <= i < |a.layers| ==>
         a.layers[i].digest == b.layers[i].digest && a.layers[i].size == b.layers[i].size
         && a.layers[i].mediaType == b.layers[i].mediaType
  }

  /** The provider of this manifest is active, with it or with the same payload. */
  predicate AlreadyActive(c: Codec, manifests: map<Digest, Bytes>, active: map<Provider, Digest>, d: Digest, bytes: Bytes) {
    var m := c.decode(bytes);
    m.provider in active
    && (active[m.provider] == d
        || (active[m.provider] in manifests && SamePayload(c.decode(manifests[active[m.provider]]), m)))
  }

  function Referenced(c: Codec, manifests: map<Digest, Bytes>): set<Digest> {
    set d, l | d in manifests && l in c.decode(manifests[d]).layers :: l.digest
  }

  // ---- Steps ---------------------------------------------------------------------------------------

  /** The process of a step, where it has one. */
  function Actor(step: Step): Option<Pid> {
    if step.OrphanEnds? || step.Reboot? then None else Some(step.p)
  }

  ghost predicate Enabled(c: Codec, s: State, step: Step) {
    if step.OrphanEnds? then s.orphanedHooks > 0
    else if step.Reboot? then true
    else (step.p in s.procs <==> !step.Arrive? && !step.Collect?) && Ready(c, s, step, PcOf(s, step.p))
  }

  ghost predicate Ready(c: Codec, s: State, step: Step, pc: Pc)
    requires Actor(step).Some?
  {
    match step
    case LockShared(p) => pc.Start? && Free(c, s, p, Shared(pc.d, pc.cachedOnly))
    case LockManifest(p) => pc.Shared? && Free(c, s, p, Cached(pc.d, pc.cachedOnly))
    case UseAdmitted(_) => (pc.Cached? || pc.Slotted?) && pc.d in s.manifests
    case MissCache(_) => pc.Cached? && pc.d !in s.manifests && !pc.cachedOnly
    case TakeSlot(p, slot) => pc.Waiting? && slot < SLOTS && Free(c, s, p, Slotted(pc.d, slot))
    case FetchManifest(_, bytes) =>
      pc.Slotted? && pc.d !in s.manifests && c.hash(bytes) == pc.d && c.decode(bytes).layers != []
    case LockBlob(p) => pc.Admitting? && NextLayer(c, pc).Some? && Free(c, s, p, BlobLocked(pc.d, pc.slot, pc.bytes, pc.done))
    case Download(_, blob) =>
      pc.BlobLocked? && NextLayer(c, pc).Some?
      && !Present(c, s.blobs, NextLayer(c, pc).value) && Fits(c, NextLayer(c, pc).value, blob)
    case Place(_) =>
      HoldsBlob(pc) && NextLayer(c, pc).Some? && (pc.Downloaded? || Present(c, s.blobs, NextLayer(c, pc).value))
    case WriteManifest(_) => pc.Admitting? && NextLayer(c, pc).None?
    case Mount(_) => pc.Admitted?
    case LockProvider(p) => pc.ProviderWanted? && Free(c, s, p, ProviderLocked(pc.d, pc.bytes))
    case FindActive(_) => pc.ProviderLocked? && AlreadyActive(c, s.manifests, s.active, pc.d, pc.bytes)
    case StartHook(p) =>
      pc.ProviderLocked? && c.decode(pc.bytes).provider !in s.active && Free(c, s, p, HookRuns(pc.d, pc.bytes))
    case EndHook(_) => pc.HookRuns?
    case RecordActive(_) => pc.HookDone?
    case Finish(_) => pc.Activated?
    case Collect(p, retained) => s.active.Values <= retained && Free(c, s, p, Collecting(retained))
    case RemoveManifest(_, d) => pc.Collecting? && d in s.manifests && d !in pc.retained
    case Sweep(_) => pc.Collecting? && s.manifests.Keys <= pc.retained
    case RemoveBlob(_, b) => pc.Sweeping? && b !in pc.referenced
    case _ => true
  }

  function PcOf(s: State, p: Pid): Pc {
    if p in s.procs then s.procs[p] else Start(0, false)
  }

  /** Where the actor goes; nothing when it is done or gone. */
  ghost function Next(c: Codec, s: State, step: Step, pc: Pc): Option<Pc>
    requires Actor(step).Some? && Ready(c, s, step, pc)
  {
    match step
    case Arrive(_, d, cachedOnly) => Some(Start(d, cachedOnly))
    case LockShared(_) => Some(Shared(pc.d, pc.cachedOnly))
    case LockManifest(_) => Some(Cached(pc.d, pc.cachedOnly))
    case UseAdmitted(_) => Some(Admitted(pc.d, s.manifests[pc.d]))
    case MissCache(_) => Some(Waiting(pc.d))
    case TakeSlot(_, slot) => Some(Slotted(pc.d, slot))
    case FetchManifest(_, bytes) => Some(Admitting(pc.d, pc.slot, bytes, 0))
    case LockBlob(_) => Some(BlobLocked(pc.d, pc.slot, pc.bytes, pc.done))
    case Download(_, blob) => Some(Downloaded(pc.d, pc.slot, pc.bytes, pc.done, blob))
    case Place(_) => Some(Admitting(pc.d, pc.slot, pc.bytes, pc.done + 1))
    case WriteManifest(_) => Some(Admitted(pc.d, pc.bytes))
    case Mount(_) =>
      Some(if c.decode(pc.bytes).hostExtension then ProviderWanted(pc.d, pc.bytes) else Activated(pc.d, pc.bytes))
    case LockProvider(_) => Some(ProviderLocked(pc.d, pc.bytes))
    case FindActive(_) => Some(Activated(pc.d, pc.bytes))
    case StartHook(_) => Some(HookRuns(pc.d, pc.bytes))
    case EndHook(_) => Some(HookDone(pc.d, pc.bytes))
    case RecordActive(_) => Some(Activated(pc.d, pc.bytes))
    case Collect(_, retained) => Some(Collecting(retained))
    case RemoveManifest(_, _) => Some(pc)
    case Sweep(_) => Some(Sweeping(Referenced(c, s.manifests)))
    case RemoveBlob(_, _) => Some(pc)
    case _ => None
  }

  function Moved(procs: map<Pid, Pc>, p: Pid, pc: Option<Pc>): map<Pid, Pc> {
    match pc
    case Some(next) => procs[p := next]
    case None => procs - {p}
  }

  /** What the step does to the store and to the active providers. */
  ghost function Written(c: Codec, s: State, step: Step, pc: Pc): State
    requires Actor(step).Some? && Ready(c, s, step, pc)
  {
    match step
    case Place(_) => if pc.Downloaded? then s.(blobs := s.blobs[NextLayer(c, pc).value.digest := pc.blob]) else s
    case WriteManifest(_) => s.(manifests := s.manifests[pc.d := pc.bytes])
    case RecordActive(_) => s.(active := s.active[c.decode(pc.bytes).provider := pc.d])
    case RemoveManifest(_, d) => s.(manifests := s.manifests - {d})
    case RemoveBlob(_, b) => s.(blobs := s.blobs - {b})
    case Die(_) => if pc.HookRuns? then s.(orphanedHooks := s.orphanedHooks + 1) else s
    case _ => s
  }

  ghost function Do(c: Codec, s: State, step: Step): State
    requires Enabled(c, s, step)
  {
    if step.OrphanEnds? then s.(orphanedHooks := s.orphanedHooks - 1)
    else if step.Reboot? then State(s.manifests, s.blobs, map[], map[], 0)
    else
      var pc := PcOf(s, step.p);
      Written(c, s, step, pc).(procs := Moved(s.procs, step.p, Next(c, s, step, pc)))
  }

  // ---- Invariants --------------------------------------------------------------------------------

  /** Every readable manifest is the one its digest names, and all its layers are there, intact. */
  ghost predicate StoreOk(c: Codec, manifests: map<Digest, Bytes>, blobs: map<Digest, Bytes>) {
    forall d :: d in manifests ==> ManifestOk(c, blobs, d, manifests[d])
  }

  ghost predicate ManifestOk(c: Codec, blobs: map<Digest, Bytes>, d: Digest, bytes: Bytes) {
    c.hash(bytes) == d && forall layer :: layer in c.decode(bytes).layers ==> Present(c, blobs, layer)
  }

  ghost predicate Exclusion(c: Codec, procs: map<Pid, Pc>) {
    forall p: Pid, q: Pid :: p in procs && q in procs && p != q ==> !Clash(c, procs[p], procs[q])
  }

  ghost predicate ActiveOk(manifests: map<Digest, Bytes>, active: map<Provider, Digest>) {
    forall name :: name in active ==> active[name] in manifests
  }

  /** The layers before `done` are in place. */
  ghost predicate Progress(c: Codec, blobs: map<Digest, Bytes>, d: Digest, bytes: Bytes, done: nat) {
    && c.hash(bytes) == d && done <= |c.decode(bytes).layers|
    && forall i :: 0 <= i < done ==> Present(c, blobs, c.decode(bytes).layers[i])
  }

  /** What a process knows at each point. */
  ghost predicate ProcOk(c: Codec, manifests: map<Digest, Bytes>, blobs: map<Digest, Bytes>,
                         active: map<Provider, Digest>, pc: Pc) {
    match pc
    case Slotted(_, slot) => slot < SLOTS
    case Admitting(d, slot, bytes, done) => slot < SLOTS && Progress(c, blobs, d, bytes, done)
    case BlobLocked(d, slot, bytes, done) => slot < SLOTS && Progress(c, blobs, d, bytes, done)
    case Downloaded(d, slot, bytes, done, blob) =>
      slot < SLOTS && Progress(c, blobs, d, bytes, done) && NextLayer(c, pc).Some? && Fits(c, NextLayer(c, pc).value, blob)
    case Admitted(d, bytes) => Holds(manifests, d, bytes)
    case ProviderWanted(d, bytes) => Holds(manifests, d, bytes)
    case ProviderLocked(d, bytes) => Holds(manifests, d, bytes)
    case HookRuns(d, bytes) => Holds(manifests, d, bytes) && c.decode(bytes).provider !in active
    case HookDone(d, bytes) => Holds(manifests, d, bytes) && c.decode(bytes).provider !in active
    case Activated(d, bytes) =>
      Holds(manifests, d, bytes) && (c.decode(bytes).hostExtension ==> AlreadyActive(c, manifests, active, d, bytes))
    case Collecting(retained) => active.Values <= retained
    case Sweeping(referenced) => Referenced(c, manifests) <= referenced
    case _ => true
  }

  ghost predicate Holds(manifests: map<Digest, Bytes>, d: Digest, bytes: Bytes) {
    d in manifests && manifests[d] == bytes
  }

  ghost predicate ProcsOk(c: Codec, s: State, procs: map<Pid, Pc>) {
    forall p: Pid :: p in procs ==> ProcOk(c, s.manifests, s.blobs, s.active, procs[p])
  }

  ghost predicate Inv(c: Codec, s: State) {
    && StoreOk(c, s.manifests, s.blobs) && ActiveOk(s.manifests, s.active)
    && Exclusion(c, s.procs) && ProcsOk(c, s, s.procs)
  }

  // ---- The locks stay exclusive ---------------------------------------------------------------------

  lemma ExclusionKept(c: Codec, s: State, step: Step)
    requires Exclusion(c, s.procs) && Enabled(c, s, step) && Actor(step).Some?
    ensures Exclusion(c, Do(c, s, step).procs)
  {
    var p := step.p;
    var next := Next(c, s, step, PcOf(s, p));
    if next.Some? {
      forall q: Pid | q in s.procs && q != p
        ensures !Clash(c, next.value, s.procs[q]) && !Clash(c, s.procs[q], next.value)
      {
        NextIsExclusive(c, s, step, q);
        ClashSym(c, next.value, s.procs[q]);
      }
    }
  }

  lemma ClashSym(c: Codec, a: Pc, b: Pc)
    ensures Clash(c, a, b) == Clash(c, b, a)
  {
  }

  /** Steps that take no lock keep some of those held. */
  predicate TakesLock(step: Step) {
    step.LockShared? || step.LockManifest? || step.TakeSlot? || step.LockBlob? || step.LockProvider? || step.StartHook? || step.Collect?
  }

  lemma NextIsExclusive(c: Codec, s: State, step: Step, q: Pid)
    requires Exclusion(c, s.procs) && Enabled(c, s, step) && Actor(step).Some?
    requires q in s.procs && q != step.p && Next(c, s, step, PcOf(s, step.p)).Some?
    ensures !Clash(c, Next(c, s, step, PcOf(s, step.p)).value, s.procs[q])
  {
    var pc := PcOf(s, step.p);
    if TakesLock(step) {
      TakenWasFree(c, s, step, pc, q);
    } else if !step.Arrive? {
      assert !Clash(c, pc, s.procs[q]);
      KeptLocks(c, s, step, pc, s.procs[q]);
    }
  }

  lemma TakenWasFree(c: Codec, s: State, step: Step, pc: Pc, q: Pid)
    requires Actor(step).Some? && Ready(c, s, step, pc) && TakesLock(step) && q in s.procs && q != step.p
    ensures Next(c, s, step, pc).Some? && !Clash(c, Next(c, s, step, pc).value, s.procs[q])
  {
  }

  lemma KeptLocks(c: Codec, s: State, step: Step, pc: Pc, other: Pc)
    requires Actor(step).Some? && Ready(c, s, step, pc) && !TakesLock(step) && !step.Arrive?
    requires !Clash(c, pc, other)
    ensures Next(c, s, step, pc).Some? ==> !Clash(c, Next(c, s, step, pc).value, other)
  {
    if step.Download? || step.Place? || step.FetchManifest? || step.WriteManifest? || step.UseAdmitted? || step.MissCache? {
    } else if step.Mount? || step.FindActive? || step.EndHook? || step.RecordActive? {
    } else {
    }
  }

  // ---- The store stays whole -------------------------------------------------------------------------

  /** Placing verified bytes under their digest never disturbs a blob that was in place. */
  lemma PresentStays(c: Codec, blobs: map<Digest, Bytes>, b: Digest, x: Bytes, layer: Layer)
    requires Injective(c) && Present(c, blobs, layer) && c.hash(x) == b
    ensures Present(c, blobs[b := x], layer)
  {
  }

  /** What the store had, it still has. */
  ghost predicate Grown(c: Codec, blobs: map<Digest, Bytes>, now: map<Digest, Bytes>) {
    forall layer :: Present(c, blobs, layer) ==> Present(c, now, layer)
  }

  lemma BlobsGrow(c: Codec, blobs: map<Digest, Bytes>, b: Digest, x: Bytes)
    requires Injective(c) && c.hash(x) == b
    ensures Grown(c, blobs, blobs[b := x])
  {
    forall layer | Present(c, blobs, layer)
      ensures Present(c, blobs[b := x], layer)
    {
      PresentStays(c, blobs, b, x, layer);
    }
  }

  lemma ProcOkWithMoreBlobs(c: Codec, manifests: map<Digest, Bytes>, blobs: map<Digest, Bytes>, now: map<Digest, Bytes>,
                            active: map<Provider, Digest>, pc: Pc)
    requires Grown(c, blobs, now) && ProcOk(c, manifests, blobs, active, pc)
    ensures ProcOk(c, manifests, now, active, pc)
  {
  }

  /** The manifest written for a digest is the one the store already had, if any. */
  lemma ManifestsGrow(c: Codec, manifests: map<Digest, Bytes>, blobs: map<Digest, Bytes>, d: Digest, bytes: Bytes)
    requires Injective(c) && StoreOk(c, manifests, blobs) && c.hash(bytes) == d
    ensures forall x :: x in manifests ==> manifests[d := bytes][x] == manifests[x]
  {
    assert d in manifests ==> ManifestOk(c, blobs, d, manifests[d]);
  }

  lemma ProcOkWithMoreManifests(c: Codec, manifests: map<Digest, Bytes>, now: map<Digest, Bytes>, blobs: map<Digest, Bytes>,
                                active: map<Provider, Digest>, pc: Pc)
    requires (forall x :: x in manifests ==> x in now && now[x] == manifests[x]) && !pc.Sweeping?
    requires ProcOk(c, manifests, blobs, active, pc)
    ensures ProcOk(c, now, blobs, active, pc)
  {
  }

  lemma ProcOkWithMoreActive(c: Codec, manifests: map<Digest, Bytes>, blobs: map<Digest, Bytes>,
                             active: map<Provider, Digest>, name: Provider, d: Digest, pc: Pc)
    requires name !in active && !HoldsExclusive(pc) && ProcOk(c, manifests, blobs, active, pc)
    requires HoldsProvider(pc) ==> c.decode(pc.bytes).provider != name
    ensures ProcOk(c, manifests, blobs, active[name := d], pc)
  {
  }

  /** A step leaves what every other process knows true. */
  lemma OthersOk(c: Codec, s: State, step: Step, q: Pid)
    requires Injective(c) && Inv(c, s) && Enabled(c, s, step) && Actor(step).Some? && q in s.procs && q != step.p
    ensures ProcOk(c, Do(c, s, step).manifests, Do(c, s, step).blobs, Do(c, s, step).active, s.procs[q])
  {
    var pc, other := PcOf(s, step.p), s.procs[q];
    assert ProcOk(c, s.manifests, s.blobs, s.active, other);
    if step.p in s.procs {
      assert ProcOk(c, s.manifests, s.blobs, s.active, pc) && !Clash(c, pc, other);
    }
    if step.Place? && pc.Downloaded? {
      var layer := NextLayer(c, pc).value;
      BlobsGrow(c, s.blobs, layer.digest, pc.blob);
      ProcOkWithMoreBlobs(c, s.manifests, s.blobs, s.blobs[layer.digest := pc.blob], s.active, other);
    } else if step.WriteManifest? {
      ManifestsGrow(c, s.manifests, s.blobs, pc.d, pc.bytes);
      ProcOkWithMoreManifests(c, s.manifests, s.manifests[pc.d := pc.bytes], s.blobs, s.active, other);
    } else if step.RecordActive? {
      ProcOkWithMoreActive(c, s.manifests, s.blobs, s.active, c.decode(pc.bytes).provider, pc.d, other);
    }
  }

  /** The actor knows what its new place requires. */
  lemma ActorOk(c: Codec, s: State, step: Step)
    requires Injective(c) && Inv(c, s) && Enabled(c, s, step) && Actor(step).Some?
    requires Next(c, s, step, PcOf(s, step.p)).Some?
    ensures var t := Do(c, s, step);
            ProcOk(c, t.manifests, t.blobs, t.active, Next(c, s, step, PcOf(s, step.p)).value)
  {
    if step.p in s.procs {
      assert ProcOk(c, s.manifests, s.blobs, s.active, PcOf(s, step.p));
    } else {
      assert PcOf(s, step.p).Start?;
    }
    if step.FetchManifest? || step.LockBlob? || step.Download? || step.Place? || step.WriteManifest? {
      AdmissionOk(c, s, step);
    } else if step.RemoveManifest? || step.RemoveBlob? || step.Sweep? {
      ReferencedShrinks(c, s, step);
    } else {
      QuietOk(c, s, step);
    }
  }

  /** The steps that leave the store alone. */
  lemma QuietOk(c: Codec, s: State, step: Step)
    requires StoreOk(c, s.manifests, s.blobs) && Enabled(c, s, step) && Actor(step).Some?
    requires ProcOk(c, s.manifests, s.blobs, s.active, PcOf(s, step.p))
    requires Next(c, s, step, PcOf(s, step.p)).Some?
    requires !(step.FetchManifest? || step.LockBlob? || step.Download? || step.Place? || step.WriteManifest?)
    requires !(step.RemoveManifest? || step.RemoveBlob? || step.Sweep?)
    ensures var t := Do(c, s, step);
            ProcOk(c, t.manifests, t.blobs, t.active, Next(c, s, step, PcOf(s, step.p)).value)
  {
  }

  lemma AdmissionOk(c: Codec, s: State, step: Step)
    requires Injective(c) && Enabled(c, s, step) && Actor(step).Some? && ProcOk(c, s.manifests, s.blobs, s.active, PcOf(s, step.p))
    requires step.FetchManifest? || step.LockBlob? || step.Download? || step.Place? || step.WriteManifest?
    ensures var t := Do(c, s, step);
            ProcOk(c, t.manifests, t.blobs, t.active, Next(c, s, step, PcOf(s, step.p)).value)
  {
    var pc := PcOf(s, step.p);
    if step.Place? && pc.Downloaded? {
      BlobsGrow(c, s.blobs, NextLayer(c, pc).value.digest, pc.blob);
    }
  }

  lemma ReferencedShrinks(c: Codec, s: State, step: Step)
    requires Actor(step).Some? && Ready(c, s, step, PcOf(s, step.p))
    requires step.RemoveManifest? || step.RemoveBlob? || step.Sweep?
    ensures Referenced(c, Written(c, s, step, PcOf(s, step.p)).manifests) <= Referenced(c, s.manifests)
  {
  }

  lemma StoreKept(c: Codec, s: State, step: Step)
    requires Injective(c) && Inv(c, s) && Enabled(c, s, step)
    ensures StoreOk(c, Do(c, s, step).manifests, Do(c, s, step).blobs) && ActiveOk(Do(c, s, step).manifests, Do(c, s, step).active)
  {
    if Actor(step).Some? && step.p in s.procs {
      var pc := s.procs[step.p];
      assert ProcOk(c, s.manifests, s.blobs, s.active, pc);
      if step.Place? && pc.Downloaded? {
        BlobsGrow(c, s.blobs, NextLayer(c, pc).value.digest, pc.blob);
        WithMoreBlobs(c, s.manifests, s.blobs, s.blobs[NextLayer(c, pc).value.digest := pc.blob]);
      } else if step.WriteManifest? {
        AdmittedIsWhole(c, s, pc);
      } else if step.RemoveBlob? {
        UnreferencedGoes(c, s.manifests, s.blobs, pc.referenced, step.b);
      } else if step.RemoveManifest? {
        ActiveStays(s.manifests, s.active, pc.retained, step.d);
      }
    }
  }

  lemma WithMoreBlobs(c: Codec, manifests: map<Digest, Bytes>, blobs: map<Digest, Bytes>, now: map<Digest, Bytes>)
    requires StoreOk(c, manifests, blobs) && Grown(c, blobs, now)
    ensures StoreOk(c, manifests, now)
  {
    forall d | d in manifests
      ensures ManifestOk(c, now, d, manifests[d])
    {
      assert ManifestOk(c, blobs, d, manifests[d]);
    }
  }

  lemma AdmittedIsWhole(c: Codec, s: State, pc: Pc)
    requires StoreOk(c, s.manifests, s.blobs) && pc.Admitting? && NextLayer(c, pc).None?
    requires Progress(c, s.blobs, pc.d, pc.bytes, pc.done)
    ensures StoreOk(c, s.manifests[pc.d := pc.bytes], s.blobs)
  {
    forall layer | layer in c.decode(pc.bytes).layers
      ensures Present(c, s.blobs, layer)
    {
      var i :| 0 <= i < |c.decode(pc.bytes).layers| && c.decode(pc.bytes).layers[i] == layer;
    }
    assert ManifestOk(c, s.blobs, pc.d, pc.bytes);
    assert forall d :: d in s.manifests ==> ManifestOk(c, s.blobs, d, s.manifests[d]);
  }

  lemma UnreferencedGoes(c: Codec, manifests: map<Digest, Bytes>, blobs: map<Digest, Bytes>, referenced: set<Digest>, b: Digest)
    requires StoreOk(c, manifests, blobs) && Referenced(c, manifests) <= referenced && b !in referenced
    ensures StoreOk(c, manifests, blobs - {b})
  {
    forall d | d in manifests
      ensures ManifestOk(c, blobs - {b}, d, manifests[d])
    {
      assert ManifestOk(c, blobs, d, manifests[d]);
      forall layer | layer in c.decode(manifests[d]).layers
        ensures Present(c, blobs - {b}, layer)
      {
        assert layer.digest in Referenced(c, manifests);
      }
    }
  }

  lemma ActiveStays(manifests: map<Digest, Bytes>, active: map<Provider, Digest>, retained: set<Digest>, d: Digest)
    requires ActiveOk(manifests, active) && active.Values <= retained && d !in retained
    ensures ActiveOk(manifests - {d}, active)
  {
    forall name | name in active
      ensures active[name] in manifests - {d}
    {
      assert active[name] in active.Values;
    }
  }

  lemma InvKept(c: Codec, s: State, step: Step)
    requires Injective(c) && Inv(c, s) && Enabled(c, s, step)
    ensures Inv(c, Do(c, s, step))
  {
    StoreKept(c, s, step);
    if Actor(step).Some? {
      ExclusionKept(c, s, step);
      forall q: Pid | q in Do(c, s, step).procs
        ensures ProcOk(c, Do(c, s, step).manifests, Do(c, s, step).blobs, Do(c, s, step).active, Do(c, s, step).procs[q])
      {
        if q == step.p {
          ActorOk(c, s, step);
        } else {
          OthersOk(c, s, step, q);
        }
      }
    }
  }
}
