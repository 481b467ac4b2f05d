/**
  The two passes over all app volumes: mounting them at boot, and reclaiming those of
  deleted apps; and what holds over every run of passes.
*/
module VolumePasses {
  import opened Sequences
  import opened VolumeWorld
  import opened Volumes

  // ---- Boot -----------------------------------------------------------------------------

  /** Whether the expected volume is mounted at the path; nothing if that is not certain. */
  method DedicatedVolumeMountStatus(m: VolumeManager, path: Path) returns (status: Option<bool>)
    ensures status == Some(true) ==> path in m.world.mounts && m.world.mounts[path] == FromVolume(m.NameFor(path))
  {
    var mounted := m.FindMnt(path);
    match mounted
    case NotMounted => status := Some(false);
    case Mounted(source) =>
      var same := m.SameBlockDevice(source, m.NameFor(path));
      status := if same then Some(true) else None;
    case _ => status := None;
  }

  /** New volumes belong to managed paths, and there are none when the inventory failed. */
  ghost predicate OnlyManagedGrew(m: VolumeManager, was: World, now: World, paths: seq<Path>, managed: set<Path>, inventoried: bool) {
    forall n :: n in now.volumes && n !in was.volumes ==>
      inventoried && exists p :: p in paths && p in managed && n == m.NameFor(p)
  }

  /**
    Nothing stands in the way of mounting the path's own volume, within any cap: at most
    files that can be set aside, as containers are stopped and the app owns the volume.
  */
  ghost predicate Ready(m: VolumeManager, w: World, p: Path)
    reads m`caps, m`calm
  {
    && p.AppVolume? && p !in w.mounts && m.Desired(p).Some?
    && (p !in w.dirs || w.dirs[p] == {} || (m.calm && OwnedBy(w, m.NameFor(p), p.app)))
    && (m.NameFor(p) in w.volumes ==> m.WithinCap(p, w.volumes[m.NameFor(p)].size))
  }

  /** Distinct paths with distinct volume names. */
  ghost predicate Apart(m: VolumeManager, paths: seq<Path>) {
    forall i, j :: 0 <= i < j < |paths| ==> paths[i] != paths[j] && m.NameFor(paths[i]) != m.NameFor(paths[j])
  }

  /** Preparing one path leaves another one ready. */
  lemma ReadyStays(m: VolumeManager, was: World, now: World, path: Path, p: Path)
    requires EnsureEffect(was, now, m.NameFor(path), path) && Ready(m, was, p)
    requires p != path && m.NameFor(p) != m.NameFor(path)
    ensures Ready(m, now, p)
  {
    var name := m.NameFor(p);
    assert p in now.mounts <==> p in now.mounts - {path};
    assert p in now.dirs ==> p in now.dirs - {path} && (now.dirs - {path})[p] == (was.dirs - {path})[p];
    assert name in now.volumes ==>
        name in now.volumes - {m.NameFor(path)} && (now.volumes - {m.NameFor(path)})[name] == (was.volumes - {m.NameFor(path)})[name];
  }

  /**
    Mounts the volumes of all paths before containers start. A path that failed is noted
    in `failed`; the others are still attempted, and where nothing stands in the way
    every managed path ends up on its own volume. With a thin pool, a backup path that is
    not noted is on its own volume; so is, wherever the inventory of volumes answered, a path
    whose volume existed before.
  */
  method BootMount(m: VolumeManager, paths: seq<Path>, caps: map<Path, real>, backup: set<Path>)
    returns (failed: set<Path>, ghost inventoried: bool, ghost pooled: bool)
    requires WorldOk(m.world)
    modifies m
    ensures WorldOk(m.world) && Kept(old(m.world), m.world)
    ensures OnlyManagedGrew(m, old(m.world), m.world, paths, caps.Keys + backup, inventoried)
    ensures !inventoried ==> m.world.volumes.Keys == old(m.world).volumes.Keys
    ensures m.reliable == old(m.reliable) && m.calm == old(m.calm) && m.caps == caps
    ensures m.reliable && Apart(m, paths) ==>
              forall p :: p in paths && p in caps.Keys + backup && Ready(m, old(m.world), p) ==>
                p !in failed && OnVolume(m.world, m.NameFor(p), p)
    ensures failed <= ToSet(paths)
    ensures inventoried && pooled ==> forall p :: p in paths && p in backup ==> p in failed || OnVolume(m.world, m.NameFor(p), p)
    ensures inventoried ==>
              forall p :: p in paths && m.NameFor(p) in old(m.world).volumes ==> p in failed || OnVolume(m.world, m.NameFor(p), p)
  {
    m.caps := caps;
    var poolListed := *;
    pooled := poolListed;
    var names := m.MetadataNames();
    inventoried := names.Some?;
    ghost var was := m.world;
    failed := MountAll(m, paths, caps.Keys + backup, names, if poolListed then backup else {});
    assert !inventoried ==> m.world.volumes.Keys == was.volumes.Keys by {
      assert forall n :: n in was.volumes ==> VolumeKept(was, m.world, n);
    }
  }

  /** The paths for which the inventory has a volume. */
  ghost function Existing(m: VolumeManager, paths: seq<Path>, names: Option<set<Name>>): set<Path> {
    set p | p in paths && names.Some? && m.NameFor(p) in names.value
  }

  method MountAll(m: VolumeManager, paths: seq<Path>, managed: set<Path>, names: Option<set<Name>>, checked: set<Path>)
    returns (failed: set<Path>)
    requires WorldOk(m.world) && (names.Some? ==> names.value == m.world.volumes.Keys) && checked <= managed
    modifies m`world
    ensures WorldOk(m.world) && Kept(old(m.world), m.world)
    ensures OnlyManagedGrew(m, old(m.world), m.world, paths, managed, names.Some?)
    ensures m.reliable && names.Some? && Apart(m, paths) ==> Boots(m, old(m.world), m.world, paths, managed, failed, |paths|)
    ensures failed <= ToSet(paths)
    ensures names.Some? ==> BackedUp(m, m.world, paths, Existing(m, paths, names) + checked, failed)
  {
    ghost var was := m.world;
    ghost var must := Existing(m, paths, names) + checked;
    failed := {};
    KeptRefl(was);
    var i := 0;
    while i < |paths|
      invariant 0 <= i <= |paths| && WorldOk(m.world) && Kept(was, m.world)
      invariant OnlyManagedGrew(m, was, m.world, paths, managed, names.Some?)
      invariant m.reliable && names.Some? && Apart(m, paths) ==> Boots(m, was, m.world, paths, managed, failed, i)
      invariant failed <= ToSet(paths[..i])
      invariant names.Some? ==> BackedUp(m, m.world, paths[..i], must, failed)
    {
      assert paths[..i + 1] == paths[..i] + [paths[i]];
      var p := paths[i];
      i := i + 1;
      var existing := names.Some? && m.NameFor(p) in names.value;
      if names.Some? && p !in managed && !existing {
        continue;
      }
      ghost var before := m.world;
      var lost := PrepareAtBoot(m, p, p in managed && names.Some?, existing, p in checked && names.Some?);
      KeptTrans(was, before, m.world);
      if m.reliable && names.Some? && Apart(m, paths) {
        BootsOn(m, was, before, m.world, paths, managed, failed, i - 1, lost);
      }
      GrowthOf(before, m.world, m.NameFor(p), p);
      if names.Some? {
        StillBackedUp(m, before, m.world, paths[..i - 1], must, failed);
      }
      if lost {
        failed := failed + {p};
      }
    }
    assert paths[..i] == paths;
  }

  /** Of the first `i` paths, those with nothing in their way are on their volumes; the others still have nothing in their way. */
  ghost predicate Boots(m: VolumeManager, was: World, now: World, paths: seq<Path>, managed: set<Path>, failed: set<Path>, i: nat)
    reads m`caps, m`calm
  {
    forall j :: 0 <= j < |paths| && paths[j] in managed && Ready(m, was, paths[j]) ==>
      if j < i then paths[j] !in failed && OnVolume(now, m.NameFor(paths[j]), paths[j]) else Ready(m, now, paths[j])
  }

  lemma BootsOn(m: VolumeManager, was: World, before: World, now: World, paths: seq<Path>, managed: set<Path>, failed: set<Path>,
                i: nat, lost: bool)
    requires i < |paths| && Apart(m, paths) && Boots(m, was, before, paths, managed, failed, i)
    requires EnsureEffect(before, now, m.NameFor(paths[i]), paths[i]) && failed <= ToSet(paths[..i])
    requires paths[i] in managed && Ready(m, before, paths[i]) ==> !lost && OnVolume(now, m.NameFor(paths[i]), paths[i])
    ensures Boots(m, was, now, paths, managed, if lost then failed + {paths[i]} else failed, i + 1)
  {
    forall j | 0 <= j < |paths| && paths[j] in managed && Ready(m, was, paths[j])
      ensures if j <= i then paths[j] !in (if lost then failed + {paths[i]} else failed) && OnVolume(now, m.NameFor(paths[j]), paths[j])
              else Ready(m, now, paths[j])
    {
      if j > i {
        ReadyStays(m, before, now, paths[i], paths[j]);
      } else if j < i {
        OnVolumeStays(before, now, m.NameFor(paths[j]), paths[j]);
      }
    }
  }

  /** The turn of one path. A checked path, or one whose volume existed, is lost unless it is on its own volume afterwards. */
  method PrepareAtBoot(m: VolumeManager, p: Path, allowCreate: bool, existing: bool, checked: bool) returns (lost: bool)
    requires WorldOk(m.world) && (checked ==> allowCreate)
    modifies m`world
    ensures WorldOk(m.world) && EnsureEffect(old(m.world), m.world, m.NameFor(p), p)
    ensures !allowCreate || existing ==> m.world.volumes.Keys == old(m.world).volumes.Keys
    ensures (checked || existing) && !lost ==> OnVolume(m.world, m.NameFor(p), p)
    ensures m.reliable && allowCreate && Ready(m, old(m.world), p) && (existing ==> m.NameFor(p) in old(m.world).volumes) ==>
              !lost && OnVolume(m.world, m.NameFor(p), p)
  {
    TaggedIsOwned(m.world, m.NameFor(p), p);
    var prepared := m.EnsureVolume(p, allowCreate, existing, true);
    lost := !prepared.Done?;
    if prepared == Done(false) && checked {
      var status := DedicatedVolumeMountStatus(m, p);
      lost := status != Some(true);
    }
  }

  /** Every one of these paths that is in `must` is noted as failed or on its own volume. */
  ghost predicate BackedUp(m: VolumeManager, w: World, paths: seq<Path>, must: set<Path>, failed: set<Path>) {
    forall p :: p in paths && p in must ==> p in failed || OnVolume(w, m.NameFor(p), p)
  }

  lemma StillBackedUp(m: VolumeManager, was: World, now: World, paths: seq<Path>, must: set<Path>, failed: set<Path>)
    requires BackedUp(m, was, paths, must, failed) && Kept(was, now)
    ensures BackedUp(m, now, paths, must, failed)
  {
    forall p | p in paths && p in must && p !in failed
      ensures OnVolume(now, m.NameFor(p), p)
    {
      OnVolumeStays(was, now, m.NameFor(p), p);
    }
  }

  lemma OnVolumeStays(was: World, now: World, name: Name, path: Path)
    requires Kept(was, now) && OnVolume(was, name, path)
    ensures OnVolume(now, name, path)
  {
    assert VolumeKept(was, now, name);
  }

  lemma GrowthOf(was: World, now: World, name: Name, path: Path)
    requires EnsureEffect(was, now, name, path)
    ensures forall n :: n in now.volumes && n !in was.volumes ==> n == name
  {
    forall n | n in now.volumes && n !in was.volumes
      ensures n == name
    {
      assert n != name ==> n in now.volumes - {name};
    }
  }

  // ---- Reclaim ------------------------------------------------------------------------------

  function Owners(tags: set<Tag>): set<Instance> {
    set t | t in tags && t.OwnerTag? :: t.app
  }

  /** One of Reefy's own volumes, all of whose owners are gone. */
  predicate Orphan(n: Name, tags: set<Tag>, live: set<Instance>) {
    n.Managed? && ManagedTag in tags && Owners(tags) != {} && Owners(tags) !! live
  }

  /** The tags that adopting the volumes of these paths may add to a volume. */
  function AdoptedTags(m: VolumeManager, seeds: seq<Path>, n: Name): set<Tag> {
    set p, t | p in seeds && m.NameFor(p) == n && t in OwnershipTags(p) :: t
  }

  /** Only tags changed, and only by adoption. */
  ghost predicate Adopted(m: VolumeManager, was: World, now: World, seeds: seq<Path>) {
    && now == was.(volumes := now.volumes) && now.volumes.Keys == was.volumes.Keys
    && forall n :: n in was.volumes ==> VolumeAdopted(m, was, now, seeds, n)
  }

  ghost predicate VolumeAdopted(m: VolumeManager, was: World, now: World, seeds: seq<Path>, n: Name) {
    VolumeKept(was, now, n) && now.volumes[n].tags <= was.volumes[n].tags + AdoptedTags(m, seeds, n)
  }

  /** Where the volume is mounted. */
  method FindTargets(m: VolumeManager, name: Name) returns (targets: Option<set<Path>>)
    ensures m.reliable ==> targets.Some?
    ensures targets.Some? ==> forall p :: p in targets.value <==> p in m.world.mounts && m.world.mounts[p] == FromVolume(name)
  {
    var available := *;
    targets := if available || m.reliable then Some(set p | p in m.world.mounts && m.world.mounts[p] == FromVolume(name)) else None;
  }

  /** At most this one volume, and its mounts, went away. */
  ghost predicate Removing(was: World, now: World, name: Name) {
    && now.dirs == was.dirs && now.recovery == was.recovery
    && now.volumes - {name} == was.volumes - {name}
    && (name in now.volumes ==> name in was.volumes && now.volumes[name] == was.volumes[name])
    && (forall p :: p in now.mounts ==> p in was.mounts && now.mounts[p] == was.mounts[p])
    && (forall p :: p in was.mounts && p !in now.mounts ==> was.mounts[p] == FromVolume(name))
  }

  /** Unmounts and removes an orphan. After any failure its tags keep it eligible for the next pass. */
  method ReclaimVolume(m: VolumeManager, name: Name)
    requires WorldOk(m.world)
    modifies m`world
    ensures WorldOk(m.world) && Removing(old(m.world), m.world, name)
    ensures m.reliable ==> name !in m.world.volumes
  {
    ghost var was := m.world;
    var targets := FindTargets(m, name);
    if targets.None? {
      return;
    }
    var left := targets.value;
    while left != {}
      invariant WorldOk(m.world) && Removing(was, m.world, name) && left <= targets.value
      invariant m.world.volumes == was.volumes
      invariant forall p :: p in m.world.mounts && m.world.mounts[p] == FromVolume(name) ==> p in left
      decreases |left|
    {
      var p :| p in left;
      var ended := m.Umount(p);
      if ended != Ok {
        return;
      }
      left := left - {p};
    }
    var ended := m.LvRemove(name);
  }

  /** Attaches ownership to the volumes of known paths that have none yet. */
  method AdoptVolumes(m: VolumeManager, seeds: seq<Path>, names: set<Name>)
    requires WorldOk(m.world)
    modifies m`world
    ensures WorldOk(m.world) && Adopted(m, old(m.world), m.world, seeds)
    ensures m.reliable && names == old(m.world).volumes.Keys ==> AllAdopted(m, old(m.world), m.world, seeds)
  {
    ghost var was := m.world;
    var i := 0;
    while i < |seeds|
      invariant 0 <= i <= |seeds| && WorldOk(m.world) && Adopted(m, was, m.world, seeds)
      invariant m.reliable && names == was.volumes.Keys ==>
                  forall j :: 0 <= j < i && m.NameFor(seeds[j]) in was.volumes ==>
                    OwnershipTags(seeds[j]) <= m.world.volumes[m.NameFor(seeds[j])].tags
    {
      var p := seeds[i];
      i := i + 1;
      if m.NameFor(p) in names && p.AppVolume? {
        ghost var before := m.world;
        var remembered := m.RememberOwnedVolume(p);
        AdoptedStep(m, was, before, m.world, seeds, p);
      }
    }
  }

  lemma AdoptedStep(m: VolumeManager, was: World, before: World, now: World, seeds: seq<Path>, p: Path)
    requires Adopted(m, was, before, seeds) && p in seeds && Retagged(before, now, m.NameFor(p), OwnershipTags(p))
    ensures Adopted(m, was, now, seeds)
  {
    if now != before {
      var name := m.NameFor(p);
      assert OwnershipTags(p) <= AdoptedTags(m, seeds, name);
      forall n | n in was.volumes
        ensures VolumeAdopted(m, was, now, seeds, n)
      {
        assert VolumeAdopted(m, was, before, seeds, n);
      }
    }
  }

  /** The volume counts as an orphan, perhaps only after adoption. */
  ghost predicate MayReclaim(m: VolumeManager, was: World, seeds: seq<Path>, live: set<Instance>, n: Name) {
    n in was.volumes
    && exists tags :: was.volumes[n].tags <= tags <= was.volumes[n].tags + AdoptedTags(m, seeds, n) && Orphan(n, tags, live)
  }

  /** Files are untouched; volumes are kept, or were orphans, and only orphans were unmounted. */
  ghost predicate ReclaimEffect(m: VolumeManager, was: World, now: World, seeds: seq<Path>, live: set<Instance>) {
    && now.dirs == was.dirs && now.recovery == was.recovery && now.volumes.Keys <= was.volumes.Keys
    && (forall n :: n in was.volumes ==>
          VolumeAdopted(m, was, now, seeds, n) || (n !in now.volumes && MayReclaim(m, was, seeds, live, n)))
    && (forall p :: p in now.mounts ==> p in was.mounts && now.mounts[p] == was.mounts[p])
    && (forall p :: p in was.mounts && p !in now.mounts ==>
          was.mounts[p].FromVolume? && MayReclaim(m, was, seeds, live, was.mounts[p].name))
  }

  /** The volumes of known paths that are still there carry their owner's tags. */
  ghost predicate AllAdopted(m: VolumeManager, was: World, now: World, seeds: seq<Path>) {
    forall p :: p in seeds && m.NameFor(p) in was.volumes && m.NameFor(p) in now.volumes ==>
      OwnershipTags(p) <= now.volumes[m.NameFor(p)].tags
  }

  /** The same, by the apps in those paths. */
  ghost predicate SeedsOwned(m: VolumeManager, now: World, seeds: seq<Path>) {
    forall p :: p in seeds && p.AppVolume? && m.NameFor(p) in now.volumes ==> OwnedBy(now, m.NameFor(p), p.app)
  }

  /** No orphan is left. */
  ghost predicate NoOrphans(w: World, live: set<Instance>) {
    forall n :: n in w.volumes ==> !Orphan(n, w.volumes[n].tags, live)
  }

  /**
    The volumes that a pass tried to remove: all that are gone, and of the others only
    orphans, which still carry the tags they were judged by.
   */
  ghost predicate Judged(was: World, now: World, live: set<Instance>, tried: set<Name>) {
    && tried <= was.volumes.Keys
    && (forall n :: n in was.volumes && n !in now.volumes ==> n in tried)
    && (forall n :: n in tried && n in now.volumes ==> Orphan(n, now.volumes[n].tags, live))
  }

  /** Progress of the sweep: only orphans outside `left` are gone. */
  ghost predicate Swept(was: World, now: World, live: set<Instance>, left: set<Name>) {
    && now.dirs == was.dirs && now.recovery == was.recovery
    && (forall n :: n in now.volumes ==> n in was.volumes && now.volumes[n] == was.volumes[n])
    && (forall n :: n in was.volumes && n !in now.volumes ==> n !in left && Orphan(n, was.volumes[n].tags, live))
    && (forall p :: p in now.mounts ==> p in was.mounts && now.mounts[p] == was.mounts[p])
    && (forall p :: p in was.mounts && p !in now.mounts ==>
          was.mounts[p].FromVolume? && was.mounts[p].name in was.volumes
          && Orphan(was.mounts[p].name, was.volumes[was.mounts[p].name].tags, live))
  }

  lemma SweptStep(was: World, before: World, now: World, live: set<Instance>, left: set<Name>, n: Name)
    requires Swept(was, before, live, left) && n in left && n in was.volumes
    requires Removing(before, now, n) && Orphan(n, was.volumes[n].tags, live)
    ensures Swept(was, now, live, left - {n}) && now.volumes.Keys <= before.volumes.Keys
  {
    forall k | k in now.volumes
      ensures k in before.volumes
    {
      assert k != n ==> k in now.volumes - {n} && k in before.volumes - {n};
    }
    forall k | k in now.volumes
      ensures k in was.volumes && now.volumes[k] == was.volumes[k]
    {
      if k != n {
        assert k in now.volumes - {n} && (now.volumes - {n})[k] == (before.volumes - {n})[k];
      }
    }
    forall k | k in was.volumes && k !in now.volumes
      ensures k !in left - {n} && Orphan(k, was.volumes[k].tags, live)
    {
      assert k in before.volumes - {n} <==> k in now.volumes - {n};
    }
  }

  lemma SweptEffect(m: VolumeManager, was: World, mid: World, now: World, seeds: seq<Path>, live: set<Instance>, left: set<Name>)
    requires Adopted(m, was, mid, seeds) && Swept(mid, now, live, left)
    ensures ReclaimEffect(m, was, now, seeds, live)
  {
    forall n | n in was.volumes && Orphan(n, mid.volumes[n].tags, live)
      ensures MayReclaim(m, was, seeds, live, n)
    {
      assert VolumeAdopted(m, was, mid, seeds, n);
    }
    forall n | n in was.volumes
      ensures VolumeAdopted(m, was, now, seeds, n) || (n !in now.volumes && MayReclaim(m, was, seeds, live, n))
    {
      assert VolumeAdopted(m, was, mid, seeds, n);
    }
  }

  /**
    Removes the volumes of deleted apps. When every command of the pass succeeds, no
    orphan is left.
  */
  method ReclaimDeletedVolumes(m: VolumeManager, live: set<Instance>, seeds: seq<Path>) returns (ghost tried: set<Name>)
    requires WorldOk(m.world)
    modifies m`world
    ensures WorldOk(m.world) && ReclaimEffect(m, old(m.world), m.world, seeds, live)
    ensures Judged(old(m.world), m.world, live, tried)
    ensures m.reliable ==> NoOrphans(m.world, live) && AllAdopted(m, old(m.world), m.world, seeds) && SeedsOwned(m, m.world, seeds)
  {
    ghost var was := m.world;
    tried := {};
    SweptEffect(m, was, was, was, seeds, live, {});
    var pool := m.HasThinPool();
    if !pool {
      return;
    }
    var names := m.MetadataNames();
    if names.None? {
      return;
    }
    AdoptVolumes(m, seeds, names.value);
    ghost var mid := m.world;
    SweptEffect(m, was, mid, mid, seeds, live, {});
    var metadata := MetadataWithTags(m);
    if metadata.None? {
      return;
    }
    SweepOrphans(m, live, metadata.value);
    SweptEffect(m, was, mid, m.world, seeds, live, {});
    tried := set n | n in mid.volumes && Orphan(n, mid.volumes[n].tags, live);
  }

  method MetadataWithTags(m: VolumeManager) returns (metadata: Option<map<Name, set<Tag>>>)
    ensures m.reliable ==> metadata.Some?
    ensures metadata.Some? ==> metadata.value == map n | n in m.world.volumes :: m.world.volumes[n].tags
  {
    var available := *;
    metadata := if available || m.reliable then Some(map n | n in m.world.volumes :: m.world.volumes[n].tags) else None;
  }

  method SweepOrphans(m: VolumeManager, live: set<Instance>, metadata: map<Name, set<Tag>>)
    requires WorldOk(m.world) && metadata == map n | n in m.world.volumes :: m.world.volumes[n].tags
    modifies m`world
    ensures WorldOk(m.world) && Swept(old(m.world), m.world, live, {})
    ensures m.reliable ==> NoOrphans(m.world, live)
  {
    ghost var was := m.world;
    var left := metadata.Keys;
    assert forall n :: n in metadata ==> n in was.volumes && metadata[n] == was.volumes[n].tags;
    while left != {}
      invariant WorldOk(m.world) && Swept(was, m.world, live, left) && left <= metadata.Keys
      invariant m.reliable ==> forall n :: n in m.world.volumes && n !in left ==> !Orphan(n, was.volumes[n].tags, live)
      decreases |left|
    {
      var n :| n in left;
      if Orphan(n, metadata[n], live) {
        ghost var before := m.world;
        ReclaimVolume(m, n);
        SweptStep(was, before, m.world, live, left, n);
      }
      left := left - {n};
    }
  }

  // ---- Runs of passes ---------------------------------------------------------------------------

  /**
    What happens to the device over time. Ensuring a path may be `answered` True; `tried`
    are the volumes a reclaim pass tried to remove; it is `smooth` if all its commands
    succeeded. A reboot drops all mounts.
   */
  datatype Pass =
    | Ensuring(path: Path, answered: bool)
    | Booting
    | Reclaiming(seeds: seq<Path>, live: set<Instance>, tried: set<Name>, smooth: bool)
    | Rebooting
    | Writing(path: Path, file: File)

  /** An app writes a file: to the volume mounted at the path, or else to the directory there. */
  function Written(w: World, path: Path, file: File): World {
    if path in w.mounts then
      if w.mounts[path].FromVolume? && w.mounts[path].name in w.volumes && w.volumes[w.mounts[path].name].data.Formatted? then
        var v := w.volumes[w.mounts[path].name];
        w.(volumes := w.volumes[w.mounts[path].name := v.(data := Formatted(v.data.files + {file}))])
      else w
    else if path in w.dirs then w.(dirs := w.dirs[path := w.dirs[path] + {file}])
    else w
  }

  /** What the contract of each operation says of the worlds before and after it. */
  ghost predicate PassEffect(m: VolumeManager, was: World, now: World, pass: Pass) {
    match pass
    case Ensuring(path, answered) =>
      && EnsureEffect(was, now, m.NameFor(path), path)
      && (answered && m.NameFor(path) !in was.volumes && m.NameFor(path) in now.volumes ==>
           path.AppVolume? && OwnedBy(now, m.NameFor(path), path.app))
    case Booting => Kept(was, now)
    case Reclaiming(seeds, live, tried, smooth) =>
      && ReclaimEffect(m, was, now, seeds, live) && Judged(was, now, live, tried)
      && (smooth ==> NoOrphans(now, live) && SeedsOwned(m, now, seeds))
    case Rebooting => now == was.(mounts := map[])
    case Writing(path, file) => now == Written(was, path, file)
  }

  ghost predicate PassAt(m: VolumeManager, worlds: seq<World>, passes: seq<Pass>, i: nat)
    requires i < |passes| < |worlds|
  {
    PassEffect(m, worlds[i], worlds[i + 1], passes[i])
  }

  ghost predicate PassRun(m: VolumeManager, worlds: seq<World>, passes: seq<Pass>) {
    |worlds| == |passes| + 1 && forall i :: 0 <= i < |passes| ==> PassAt(m, worlds, passes, i)
  }

  /** The volume is still there, with its size, all its tags and all its files. */
  ghost predicate VolumeGrown(was: World, now: World, n: Name) {
    && n in was.volumes && n in now.volumes
    && now.volumes[n].size == was.volumes[n].size && was.volumes[n].tags <= now.volumes[n].tags
    && match was.volumes[n].data
       case Unformatted => now.volumes[n].data == Unformatted
       case Formatted(files) => now.volumes[n].data.Formatted? && files <= now.volumes[n].data.files
  }

  /** A volume that a pass leaves there is no less than it was. */
  lemma SurvivorIsGrown(m: VolumeManager, was: World, now: World, pass: Pass, n: Name)
    requires PassEffect(m, was, now, pass) && n in was.volumes && n in now.volumes
    ensures VolumeGrown(was, now, n)
  {
    match pass
    case Ensuring(_, _) => assert VolumeKept(was, now, n);
    case Booting => assert VolumeKept(was, now, n);
    case Reclaiming(seeds, _, _, _) => assert VolumeAdopted(m, was, now, seeds, n);
    case Rebooting =>
    case Writing(_, _) =>
  }

  /** No pass takes a volume whose owner is in the state given to that pass. */
  lemma LiveVolumeSurvivesPass(m: VolumeManager, was: World, now: World, pass: Pass, n: Name, a: Instance)
    requires PassEffect(m, was, now, pass) && n in was.volumes && OwnerTag(a) in was.volumes[n].tags
    requires pass.Reclaiming? ==> a in pass.live
    ensures VolumeGrown(was, now, n)
  {
    if pass.Reclaiming? {
      forall tags | was.volumes[n].tags <= tags
        ensures !Orphan(n, tags, pass.live)
      {
        OwnedIsNoOrphan(n, tags, pass.live, a);
      }
    } else if pass.Ensuring? || pass.Booting? {
      assert VolumeKept(was, now, n);
    }
    SurvivorIsGrown(m, was, now, pass, n);
  }

  lemma OwnedIsNoOrphan(n: Name, tags: set<Tag>, live: set<Instance>, a: Instance)
    requires OwnerTag(a) in tags && a in live
    ensures !Orphan(n, tags, live)
  {
    assert a in Owners(tags);
  }

  /**
    Over every run, whatever commands fail and however often the device reboots: while
    one of its owners is in every state given to reclaim, a volume keeps its tags and
    every file that was or has been written to it.
  */
  lemma {:induction false} LiveVolumeSurvives(m: VolumeManager, worlds: seq<World>, passes: seq<Pass>, i: nat, k: nat, n: Name, a: Instance)
    requires PassRun(m, worlds, passes) && i <= k <= |passes|
    requires n in worlds[i].volumes && OwnerTag(a) in worlds[i].volumes[n].tags
    requires forall j :: i <= j < k && passes[j].Reclaiming? ==> a in passes[j].live
    ensures VolumeGrown(worlds[i], worlds[k], n)
    decreases k
  {
    if i < k {
      LiveVolumeSurvives(m, worlds, passes, i, k - 1, n, a);
      assert PassAt(m, worlds, passes, k - 1);
      LiveVolumeSurvivesPass(m, worlds[k - 1], worlds[k], passes[k - 1], n, a);
    }
  }

  /**
    A volume that is gone after a run was removed by a reclaim pass that could take it
    for an orphan: one of Reefy's names, tagged, with no owner in that pass's state.
  */
  lemma {:induction false} LostOnlyToReclaim(m: VolumeManager, worlds: seq<World>, passes: seq<Pass>, k: nat, n: Name) returns (j: nat)
    requires PassRun(m, worlds, passes) && k <= |passes|
    requires n in worlds[0].volumes && n !in worlds[k].volumes
    ensures j < k && passes[j].Reclaiming? && n in worlds[j].volumes && n !in worlds[j + 1].volumes
    ensures n.Managed? && MayReclaim(m, worlds[j], passes[j].seeds, passes[j].live, n)
  {
    if n in worlds[k - 1].volumes {
      assert PassAt(m, worlds, passes, k - 1);
      LostInPass(m, worlds[k - 1], worlds[k], passes[k - 1], n);
      j := k - 1;
    } else {
      j := LostOnlyToReclaim(m, worlds, passes, k - 1, n);
    }
  }

  lemma LostInPass(m: VolumeManager, was: World, now: World, pass: Pass, n: Name)
    requires PassEffect(m, was, now, pass) && n in was.volumes && n !in now.volumes
    ensures pass.Reclaiming? && n.Managed? && MayReclaim(m, was, pass.seeds, pass.live, n)
  {
    if pass.Ensuring? || pass.Booting? {
      NoneLost(was, now);
    }
  }

  lemma NoneLost(was: World, now: World)
    requires VolumesKept(was, now)
    ensures was.volumes.Keys <= now.volumes.Keys
  {
    forall n | n in was.volumes
      ensures n in now.volumes
    {
      assert VolumeKept(was, now, n);
    }
  }

  // ---- Files in app directories ---------------------------------------------------------------

  ghost predicate AtPath(w: World, p: Path, files: Dir) {
    p in w.dirs && files <= w.dirs[p]
  }

  ghost predicate InRecovery(w: World, files: Dir) {
    exists k :: k in w.recovery && files <= w.recovery[k]
  }

  lemma FilesSurvivePass(m: VolumeManager, was: World, now: World, pass: Pass, p: Path, files: Dir)
    requires PassEffect(m, was, now, pass) && files != {}
    ensures AtPath(was, p, files) ==> (AtPath(now, p, files) && (p !in was.mounts ==> p !in now.mounts)) || InRecovery(now, files)
    ensures InRecovery(was, files) ==> InRecovery(now, files)
  {
    if InRecovery(was, files) {
      var k :| k in was.recovery && files <= was.recovery[k];
      assert k in now.recovery && now.recovery[k] == was.recovery[k];
    }
    if AtPath(was, p, files) && (pass.Ensuring? || pass.Booting?) {
      assert FilesKept(was, now, p);
      if k :| k in now.recovery && now.recovery[k] == was.dirs[p] {
        assert files <= now.recovery[k];
      }
    }
  }

  /**
    Over every run, reboots and writes of apps included: files in an app directory stay
    there, and no more hidden by a mount than they were, or lie together in the recovery
    area.
   */
  lemma {:induction false} FilesSurvive(m: VolumeManager, worlds: seq<World>, passes: seq<Pass>, i: nat, k: nat, p: Path, files: Dir)
    requires PassRun(m, worlds, passes) && i <= k <= |passes|
    requires AtPath(worlds[i], p, files) && files != {}
    ensures (AtPath(worlds[k], p, files) && (p !in worlds[i].mounts ==> p !in worlds[k].mounts)) || InRecovery(worlds[k], files)
    decreases k
  {
    if i < k {
      FilesSurvive(m, worlds, passes, i, k - 1, p, files);
      assert PassAt(m, worlds, passes, k - 1);
      FilesSurvivePass(m, worlds[k - 1], worlds[k], passes[k - 1], p, files);
    }
  }

  // ---- Failed removals ----------------------------------------------------------------------------

  lemma {:induction false} TagsGrow(m: VolumeManager, worlds: seq<World>, passes: seq<Pass>, i: nat, k: nat, n: Name)
    requires PassRun(m, worlds, passes) && i <= k <= |passes|
    requires forall j :: i <= j <= k ==> n in worlds[j].volumes
    ensures worlds[i].volumes[n].tags <= worlds[k].volumes[n].tags
    decreases k
  {
    if i < k {
      TagsGrow(m, worlds, passes, i, k - 1, n);
      assert PassAt(m, worlds, passes, k - 1);
      SurvivorIsGrown(m, worlds[k - 1], worlds[k], passes[k - 1], n);
    }
  }

  /**
    A volume that pass `i` tried to remove and could not, for as long as it is there: it
    is an orphan for every state without an owner of it. So the next reclaim pass whose
    commands succeed removes it, unless one of its owners is back in that pass's state.
   */
  lemma FailedRemovalStaysEligible(m: VolumeManager, worlds: seq<World>, passes: seq<Pass>, i: nat, k: nat, n: Name)
    requires PassRun(m, worlds, passes) && i < k <= |passes| && passes[i].Reclaiming? && n in passes[i].tried
    requires forall j :: i < j <= k ==> n in worlds[j].volumes
    ensures forall next :: Owners(worlds[k].volumes[n].tags) !! next ==> Orphan(n, worlds[k].volumes[n].tags, next)
    ensures k < |passes| && passes[k].Reclaiming? && passes[k].smooth && n in worlds[k + 1].volumes ==>
              Owners(worlds[k + 1].volumes[n].tags) * passes[k].live != {}
  {
    assert PassAt(m, worlds, passes, i);
    TagsGrow(m, worlds, passes, i + 1, k, n);
    TagsStayOwned(n, worlds[i + 1].volumes[n].tags, worlds[k].volumes[n].tags, passes[i].live);
    if k < |passes| && passes[k].Reclaiming? && n in worlds[k + 1].volumes {
      assert PassAt(m, worlds, passes, k);
      SurvivorIsGrown(m, worlds[k], worlds[k + 1], passes[k], n);
      TagsStayOwned(n, worlds[i + 1].volumes[n].tags, worlds[k + 1].volumes[n].tags, passes[i].live);
    }
  }

  lemma TagsStayOwned(n: Name, was: set<Tag>, now: set<Tag>, live: set<Instance>)
    requires Orphan(n, was, live) && was <= now
    ensures forall next :: Owners(now) !! next ==> Orphan(n, now, next)
  {
    var a :| a in Owners(was);
    assert a in Owners(now);
  }
}
