/**
  Who waits for whom in the artifact protocol: what each process can do next, which lock
  it may wait for, and why the waiting never goes in a circle.
 */
module ArtifactProgress {
  import opened Sequences
  import opened Artifacts
  import opened ArtifactRuns
  import opened ArtifactPayload

  // ---- Waiting for a lock ---------------------------------------------------------------------

  /** Another process collects, or works on the manifest, slot, layer or provider that this one wants next, or runs a hook. */
  ghost predicate WaitsFor(c: Codec, s: State, p: Pid, q: Pid) {
    p in s.procs && q in s.procs && p != q &&
    var a, b := s.procs[p], s.procs[q];
    match a
    case Start(_, _) => b.Collecting? || b.Sweeping?
    case Shared(d, _) => AtWork(b) && b.d == d
    case Waiting(_) => SlotInHand(b).Some?
    case Admitting(_, _, bytes, done) =>
      done < |c.decode(bytes).layers| && LayerInHand(c, b) == Some(c.decode(bytes).layers[done].digest)
    case ProviderWanted(_, bytes) => ProviderInHand(c, b) == Some(c.decode(bytes).provider)
    case ProviderLocked(_, bytes) => c.decode(bytes).provider !in s.active && b.HookRuns?
    case _ => false
  }

  ghost predicate Waits(c: Codec, s: State, p: Pid) {
    exists q :: WaitsFor(c, s, p, q)
  }

  /** What a process that wants a lock becomes with it. */
  function Wanted(pc: Pc): Pc {
    match pc
    case Start(d, cachedOnly) => Shared(d, cachedOnly)
    case Shared(d, cachedOnly) => Cached(d, cachedOnly)
    case Admitting(d, slot, bytes, done) => BlobLocked(d, slot, bytes, done)
    case ProviderWanted(d, bytes) => ProviderLocked(d, bytes)
    case ProviderLocked(d, bytes) => HookRuns(d, bytes)
    case other => other
  }

  predicate WantsLock(c: Codec, s: State, pc: Pc) {
    || pc.Start? || pc.Shared? || pc.ProviderWanted?
    || (pc.Admitting? && pc.done < |c.decode(pc.bytes).layers|)
    || (pc.ProviderLocked? && c.decode(pc.bytes).provider !in s.active)
  }

  lemma ClashIsWaiting(c: Codec, s: State, p: Pid, q: Pid)
    requires p in s.procs && q in s.procs && p != q && WantsLock(c, s, s.procs[p])
    requires !Clash(c, s.procs[p], s.procs[q]) && Clash(c, Wanted(s.procs[p]), s.procs[q])
    ensures WaitsFor(c, s, p, q)
  {
  }

  /** A lock that no other process holds is free. */
  lemma WantedIsFree(c: Codec, s: State, p: Pid)
    requires Inv(c, s) && p in s.procs && !Waits(c, s, p) && WantsLock(c, s, s.procs[p])
    ensures Free(c, s, p, Wanted(s.procs[p]))
  {
    forall q: Pid | q in s.procs && q != p
      ensures !Clash(c, Wanted(s.procs[p]), s.procs[q])
    {
      assert !Clash(c, s.procs[p], s.procs[q]) && !WaitsFor(c, s, p, q);
      if Clash(c, Wanted(s.procs[p]), s.procs[q]) {
        ClashIsWaiting(c, s, p, q);
      }
    }
  }

  // ---- What a process can do next ------------------------------------------------------------------

  /** Before its manifest is settled. */
  lemma EarlyStep(c: Codec, s: State, p: Pid)
    requires Inv(c, s) && p in s.procs && !Waits(c, s, p)
    ensures s.procs[p].Start? ==> Enabled(c, s, LockShared(p))
    ensures s.procs[p].Shared? ==> Enabled(c, s, LockManifest(p))
    ensures s.procs[p].Cached? ==>
              && (Enabled(c, s, UseAdmitted(p)) <==> s.procs[p].d in s.manifests)
              && (Enabled(c, s, MissCache(p)) <==> s.procs[p].d !in s.manifests && !s.procs[p].cachedOnly)
  {
    if WantsLock(c, s, s.procs[p]) {
      WantedIsFree(c, s, p);
    }
  }

  /** While it is admitted: a slot, the manifest, the layers one by one, the manifest file. */
  lemma AdmissionStep(c: Codec, s: State, p: Pid)
    requires Inv(c, s) && p in s.procs && !Waits(c, s, p)
    ensures s.procs[p].Waiting? ==> Enabled(c, s, TakeSlot(p, 0)) && Enabled(c, s, TakeSlot(p, 1))
    ensures s.procs[p].Slotted? ==>
              && (Enabled(c, s, UseAdmitted(p)) <==> s.procs[p].d in s.manifests)
              && forall bytes :: Enabled(c, s, FetchManifest(p, bytes)) <==>
                   s.procs[p].d !in s.manifests && c.hash(bytes) == s.procs[p].d && c.decode(bytes).layers != []
    ensures s.procs[p].Admitting? ==>
              if s.procs[p].done < |c.decode(s.procs[p].bytes).layers| then Enabled(c, s, LockBlob(p)) else Enabled(c, s, WriteManifest(p))
    ensures s.procs[p].Downloaded? ==> Enabled(c, s, Place(p))
  {
    var pc := s.procs[p];
    assert ProcOk(c, s.manifests, s.blobs, s.active, pc);
    if pc.Waiting? {
      SlotsAreFree(c, s, p);
    } else if WantsLock(c, s, pc) {
      WantedIsFree(c, s, p);
    }
  }

  lemma SlotsAreFree(c: Codec, s: State, p: Pid)
    requires Inv(c, s) && p in s.procs && s.procs[p].Waiting? && !Waits(c, s, p)
    ensures Free(c, s, p, Slotted(s.procs[p].d, 0)) && Free(c, s, p, Slotted(s.procs[p].d, 1))
  {
    forall q: Pid | q in s.procs && q != p
      ensures !Clash(c, Slotted(s.procs[p].d, 0), s.procs[q]) && !Clash(c, Slotted(s.procs[p].d, 1), s.procs[q])
    {
      assert !Clash(c, s.procs[p], s.procs[q]) && !WaitsFor(c, s, p, q);
    }
  }

  /** With the layer's lock: its blob is placed if it is there, else any blob that fits can be downloaded. */
  lemma LayerStep(c: Codec, s: State, p: Pid)
    requires Inv(c, s) && p in s.procs && s.procs[p].BlobLocked? && s.procs[p].done < |c.decode(s.procs[p].bytes).layers|
    ensures var layer := c.decode(s.procs[p].bytes).layers[s.procs[p].done];
            if layer.digest in s.blobs && Fits(c, layer, s.blobs[layer.digest]) then Enabled(c, s, Place(p))
            else forall blob :: Enabled(c, s, Download(p, blob)) <==> Fits(c, layer, blob)
  {
  }

  /** Once admitted: mounting, the provider, the hook, the record. */
  lemma ActivationStep(c: Codec, s: State, p: Pid)
    requires Inv(c, s) && p in s.procs && !Waits(c, s, p)
    ensures s.procs[p].Admitted? ==> Enabled(c, s, Mount(p))
    ensures s.procs[p].ProviderWanted? ==> Enabled(c, s, LockProvider(p))
    ensures s.procs[p].ProviderLocked? && c.decode(s.procs[p].bytes).provider !in s.active ==> Enabled(c, s, StartHook(p))
    ensures s.procs[p].HookRuns? ==> Enabled(c, s, EndHook(p))
    ensures s.procs[p].HookDone? ==> Enabled(c, s, RecordActive(p))
    ensures s.procs[p].Activated? ==> Enabled(c, s, Finish(p))
  {
    if WantsLock(c, s, s.procs[p]) {
      WantedIsFree(c, s, p);
    }
  }

  /** A collection removes another manifest or goes on to the blobs. */
  lemma CollectionStep(c: Codec, s: State, p: Pid)
    requires Inv(c, s) && p in s.procs && s.procs[p].Collecting?
    ensures Enabled(c, s, Sweep(p)) || exists d :: Enabled(c, s, RemoveManifest(p, d))
  {
    if !(s.manifests.Keys <= s.procs[p].retained) {
      var d :| d in s.manifests && d !in s.procs[p].retained;
      assert Enabled(c, s, RemoveManifest(p, d));
    }
  }

  // ---- No circle ---------------------------------------------------------------------------------------

  /** Locks are taken in this order. */
  function Stage(pc: Pc): nat {
    match pc
    case Start(_, _) => 0
    case Shared(_, _) => 1
    case Cached(_, _) => 2
    case Waiting(_) => 2
    case Slotted(_, _) => 3
    case Admitting(_, _, _, _) => 3
    case BlobLocked(_, _, _, _) => 4
    case Downloaded(_, _, _, _, _) => 4
    case Admitted(_, _) => 4
    case ProviderWanted(_, _) => 4
    case ProviderLocked(_, _) => 5
    case _ => 6
  }

  /** Who is waited for is further on. */
  lemma WaitsForward(c: Codec, s: State, p: Pid, q: Pid)
    requires WaitsFor(c, s, p, q)
    ensures Stage(s.procs[p]) < Stage(s.procs[q])
  {
  }

  /** So whenever there is a process, one waits for no lock, and every chain of waiting leads to such a one. */
  lemma {:induction false} SomeoneIsFree(c: Codec, s: State, p: Pid) returns (q: Pid)
    requires p in s.procs
    ensures q in s.procs && !Waits(c, s, q) && (q == p || Stage(s.procs[p]) < Stage(s.procs[q]))
    decreases 6 - Stage(s.procs[p])
  {
    if Waits(c, s, p) {
      var next :| WaitsFor(c, s, p, next);
      WaitsForward(c, s, p, next);
      q := SomeoneIsFree(c, s, next);
    } else {
      q := p;
    }
  }
}
