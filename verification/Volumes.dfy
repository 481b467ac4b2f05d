/**
  The per-app volume manager: it creates, mounts, caps, repairs and reclaims logical
  volumes while any command may fail, or take effect and then time out, and any
  inspection may be unavailable.
*/
module Volumes {
  import opened Sequences
  import opened VolumeWorld
  import Alignment

  /** How a command ended. Only `Ok` tells whether it took effect. */
  datatype Ended = Ok | Refused | TimedOut

  datatype MountInfo = Mounted(source: Source) | NotMounted | Unknown | Raised

  /** What preparing a volume came to; `Failed` is any error but an unavailable volume. */
  datatype Outcome = Done(onVolume: bool) | Unavailable | Failed

  /** `tagged` tells Reefy's volumes from others, and one app's volumes from another's. */
  predicate Tagged(w: World, name: Name, path: Path) {
    path.AppVolume? && name in w.volumes && OwnershipTags(path) <= w.volumes[name].tags
  }

  /** The tags that mark an app's own volume; other paths have none. */
  function OwnershipTags(path: Path): set<Tag> {
    if path.AppVolume? then {ManagedTag, OwnerTag(path.app)} else {}
  }

  /** The volume is marked as one of Reefy's, and as this app's. */
  predicate OwnedBy(w: World, name: Name, app: Instance) {
    name in w.volumes && ManagedTag in w.volumes[name].tags && OwnerTag(app) in w.volumes[name].tags
  }

  /** Only tags of one volume were added, and only some of `extra`. */
  ghost predicate Retagged(was: World, now: World, name: Name, extra: set<Tag>) {
    now == was
    || (&& name in was.volumes && name in now.volumes
        && was.volumes[name].tags <= now.volumes[name].tags <= was.volumes[name].tags + extra
        && now == was.(volumes := was.volumes[name := was.volumes[name].(tags := now.volumes[name].tags)]))
  }

  /** No files are visible at the path: it may be mounted over. */
  predicate Clear(w: World, path: Path) {
    path in w.dirs ==> w.dirs[path] == {}
  }

  ghost predicate OnVolume(w: World, name: Name, path: Path) {
    name in w.volumes && path in w.mounts && w.mounts[path] == FromVolume(name)
  }

  /** One volume was added, nothing else changed. */
  ghost predicate Added(was: World, now: World, name: Name) {
    && name !in was.volumes && name in now.volumes
    && now == was.(volumes := was.volumes[name := now.volumes[name]])
  }

  /** What may have happened to a volume, and to the empty mount point, while mounting it. */
  ghost predicate Mounting(was: World, now: World, name: Name, path: Path) {
    && now.volumes - {name} == was.volumes - {name} && (name in now.volumes ==> VolumeKept(was, now, name))
    && now.mounts - {path} == was.mounts - {path} && (path in now.mounts ==> now.mounts[path] == FromVolume(name))
    && now.dirs - {path} == was.dirs - {path} && Clear(now, path)
    && now.recovery == was.recovery
  }

  class VolumeManager {
    const nameOf: Path -> nat
    const pool: int
    const sector: int
    const extent: int
    var caps: map<Path, real>
    var world: World
    /** The environment of the moment: every command succeeds, every inspection answers. */
    var reliable: bool
    /** Containers are stopped, and no mount point is a symbolic link. */
    var calm: bool

    constructor (nameOf: Path -> nat, pool: int, sector: int, extent: int, world: World)
      ensures this.nameOf == nameOf && this.pool == pool && this.sector == sector && this.extent == extent
      ensures this.world == world && caps == map[]
    {
      this.nameOf, this.pool, this.sector, this.extent := nameOf, pool, sector, extent;
      this.world, caps, reliable, calm := world, map[], false, false;
    }

    function NameFor(path: Path): Name {
      Managed(nameOf(path))
    }

    /** The size of a new volume: the whole pool, or what the cap of the path allows. */
    function Desired(path: Path): Option<int>
      reads this`caps
    {
      if path in caps then Alignment.CappedVirtualSize(pool, caps[path], sector, Some(extent)) else Some(pool)
    }

    /** A size the cap of the path allows, if it has one. */
    predicate WithinCap(path: Path, size: int)
      reads this`caps
    {
      path in caps ==> Desired(path).Some? && size <= Desired(path).value
    }

    /** LVM allocates whole extents. */
    function Granted(size: int): int {
      if extent > 0 then Alignment.ExtentRoundUp(size, extent) else size
    }

    /** What preparing a volume comes to when nothing goes wrong. */
    function Expected(w: World, path: Path, allowCreate: bool, expectExisting: bool, recoverFallback: bool): Outcome
      reads this`caps, this`calm
    {
      var name := NameFor(path);
      if path in w.mounts then
        if w.mounts[path] == FromVolume(name) && name in w.volumes then Done(WithinCap(path, w.volumes[name].size))
        else if expectExisting then Unavailable
        else Done(path !in caps && !allowCreate)
      else if name in w.volumes then
        if Clear(w, path) || (recoverFallback && calm && Tagged(w, name, path)) then Done(WithinCap(path, w.volumes[name].size))
        else Unavailable
      else if expectExisting then Unavailable
      else Done(Clear(w, path) && allowCreate && Desired(path).Some? && path.AppVolume?)
    }

    // ---- Commands and inspections ----------------------------------------------------------

    method HasThinPool() returns (available: bool)
      ensures reliable ==> available
    {
      available := *;
      available := available || reliable;
    }

    method FindMnt(path: Path) returns (m: MountInfo)
      ensures m.Mounted? ==> path in world.mounts && world.mounts[path] == m.source
      ensures m.NotMounted? ==> path !in world.mounts
      ensures reliable ==> m.Mounted? || m.NotMounted?
    {
      var unavailable, raised := *, *;
      if unavailable && !reliable {
        return if raised then Raised else Unknown;
      }
      m := if path in world.mounts then Mounted(world.mounts[path]) else NotMounted;
    }

    /** May miss that two names are one device, but never invents it. */
    method SameBlockDevice(source: Source, name: Name) returns (same: bool)
      ensures same ==> source == FromVolume(name)
      ensures reliable ==> same == (source == FromVolume(name))
    {
      same := *;
      same := (same || reliable) && source == FromVolume(name);
    }

    method MetadataNames() returns (names: Option<set<Name>>)
      ensures names.Some? ==> names.value == world.volumes.Keys
      ensures reliable ==> names.Some?
    {
      var available := *;
      names := if available || reliable then Some(world.volumes.Keys) else None;
    }

    method MetadataExists(name: Name) returns (present: Option<bool>)
      ensures present.Some? ==> present.value == (name in world.volumes)
      ensures reliable ==> present.Some?
    {
      var names := MetadataNames();
      present := if names.Some? then Some(name in names.value) else None;
    }

    method VolumeTags(name: Name) returns (tags: Option<set<Tag>>)
      ensures tags.Some? ==> name in world.volumes && tags.value == world.volumes[name].tags
      ensures reliable && name in world.volumes ==> tags.Some?
    {
      var available := *;
      tags := if (available || reliable) && name in world.volumes then Some(world.volumes[name].tags) else None;
    }

    method VirtualSize(name: Name) returns (size: Option<int>)
      ensures size.Some? ==> name in world.volumes && size.value == world.volumes[name].size
      ensures reliable && name in world.volumes ==> size.Some?
    {
      var available := *;
      size := if (available || reliable) && name in world.volumes then Some(world.volumes[name].size) else None;
    }

    /** The size to create a volume with, or to hold an existing one to. */
    method DesiredVolumeSize(path: Path) returns (size: Option<int>)
      ensures size.None? || size == Desired(path)
      ensures reliable ==> size == Desired(path)
    {
      var poolKnown, geometryKnown := *, *;
      if !poolKnown && !reliable {
        return None;
      }
      if path in caps && !geometryKnown && !reliable {
        return None;
      }
      size := Desired(path);
    }

    method LvCreate(name: Name, size: int) returns (ended: Ended)
      modifies this`world
      ensures world == old(world)
              || (name !in old(world).volumes && name in world.volumes
                  && world.volumes[name].tags == {}
                  && world == old(world).(volumes := old(world).volumes[name := world.volumes[name]]))
      ensures ended == Ok ==> name in world.volumes && name !in old(world).volumes
      ensures WorldOk(old(world)) ==> WorldOk(world)
      ensures reliable && name !in old(world).volumes ==> ended == Ok && world.volumes[name].size == Granted(size)
    {
      var acts := *;
      ended := *;
      if name in world.volumes || (!acts && !reliable) {
        ended := if ended == Ok then Refused else ended;
        return;
      }
      var granted: int := *;
      if reliable {
        ended, granted := Ok, Granted(size);
      }
      world := world.(volumes := world.volumes[name := Volume(granted, {}, Unformatted)]);
    }

    method LvRemove(name: Name) returns (ended: Ended)
      modifies this`world
      ensures world == old(world)
              || (!InUse(old(world), name) && world == old(world).(volumes := old(world).volumes - {name}))
      ensures ended == Ok ==> name !in world.volumes
      ensures WorldOk(old(world)) ==> WorldOk(world)
      ensures reliable && !InUse(old(world), name) ==> ended == Ok
    {
      var acts := *;
      ended := *;
      if InUse(world, name) || (!acts && !reliable) {
        ended := if ended == Ok then Refused else ended;
        return;
      }
      ended := if reliable then Ok else ended;
      world := world.(volumes := world.volumes - {name});
    }

    method Mkfs(name: Name) returns (ended: Ended)
      requires name in world.volumes
      modifies this`world
      ensures name in world.volumes
      ensures world == old(world).(volumes := old(world).volumes[name := old(world).volumes[name].(data := world.volumes[name].data)])
      ensures ended == Ok ==> world.volumes[name].data == Formatted({})
      ensures WorldOk(old(world)) ==> WorldOk(world)
      ensures reliable ==> ended == Ok
    {
      var acts := *;
      ended := *;
      ended := if reliable then Ok else ended;
      if acts || ended == Ok {
        world := world.(volumes := world.volumes[name := world.volumes[name].(data := Formatted({}))]);
      }
    }

    method Mount(name: Name, path: Path) returns (ended: Ended)
      modifies this`world
      ensures world == old(world)
              || (name in world.volumes && world == old(world).(mounts := old(world).mounts[path := FromVolume(name)]))
      ensures ended == Ok ==> OnVolume(world, name, path)
      ensures WorldOk(old(world)) ==> WorldOk(world)
      ensures reliable && name in old(world).volumes ==> ended == Ok
    {
      var acts := *;
      ended := *;
      if name !in world.volumes || (!acts && !reliable) {
        ended := if ended == Ok then Refused else ended;
        return;
      }
      ended := if reliable then Ok else ended;
      world := world.(mounts := world.mounts[path := FromVolume(name)]);
    }

    method Umount(path: Path) returns (ended: Ended)
      modifies this`world
      ensures world == old(world) || world == old(world).(mounts := old(world).mounts - {path})
      ensures ended == Ok ==> path !in world.mounts
      ensures WorldOk(old(world)) ==> WorldOk(world)
      ensures reliable ==> ended == Ok
    {
      var acts := *;
      ended := *;
      ended := if reliable then Ok else ended;
      if acts || ended == Ok {
        world := world.(mounts := world.mounts - {path});
      }
    }

    method AddTags(name: Name, tags: set<Tag>) returns (ended: Ended)
      requires name in world.volumes
      modifies this`world
      ensures Retagged(old(world), world, name, tags)
      ensures ended == Ok ==> tags <= world.volumes[name].tags
      ensures WorldOk(old(world)) ==> WorldOk(world)
      ensures reliable ==> ended == Ok
    {
      var acts := *;
      ended := *;
      ended := if reliable then Ok else ended;
      if acts || ended == Ok {
        world := world.(volumes := world.volumes[name := world.volumes[name].(tags := world.volumes[name].tags + tags)]);
      }
    }

    /** Makes the mount point; an existing directory is fine. */
    method MakeDirs(path: Path) returns (ok: bool)
      modifies this`world
      ensures world == old(world)
              || (path !in old(world).dirs && world == old(world).(dirs := old(world).dirs[path := {}]))
      ensures ok ==> path in world.dirs
      ensures reliable ==> ok
    {
      ok := *;
      ok := ok || reliable;
      if ok && path !in world.dirs {
        world := world.(dirs := world.dirs[path := {}]);
      }
    }

    /** Repairs an unmounted volume in place, at most once a boot. */
    method RepairOwnedXfsVolume(path: Path) returns (repaired: bool)
    {
      repaired := *;
      repaired := repaired && path.AppVolume?;
    }

    // ---- Ownership -------------------------------------------------------------------------

    method RememberOwnedVolume(path: Path) returns (ok: bool)
      modifies this`world
      ensures Retagged(old(world), world, NameFor(path), OwnershipTags(path))
      ensures ok ==> Tagged(world, NameFor(path), path)
      ensures ok ==> path.AppVolume? && OwnedBy(world, NameFor(path), path.app)
      ensures forall n, t :: n in world.volumes && t in world.volumes[n].tags ==>
                || (n in old(world).volumes && t in old(world).volumes[n].tags)
                || (n == NameFor(path) && path.AppVolume? && (t == ManagedTag || t == OwnerTag(path.app)))
      ensures WorldOk(old(world)) ==> WorldOk(world)
      ensures reliable && path.AppVolume? && NameFor(path) in old(world).volumes ==> ok
    {
      var name := NameFor(path);
      if !path.AppVolume? {
        return false;
      }
      var tags := VolumeTags(name);
      if tags.None? {
        return false;
      }
      var missing := OwnershipTags(path) - tags.value;
      assert OwnershipTags(path) <= tags.value + missing;
      if missing == {} {
        assert OwnershipTags(path) <= tags.value;
        return true;
      }
      var ended := AddTags(name, missing);
      ok := ended == Ok;
    }

    /** Moves the files at an unmounted path aside, whole, and leaves an empty mount point. */
    method PreserveOwnedVolumeFallback(path: Path) returns (ok: bool)
      requires path in world.dirs && path !in world.mounts
      modifies this`world
      ensures world == old(world) || Recovered(world, old(world).dirs[path])
      ensures world == old(world).(dirs := world.dirs, recovery := world.recovery)
      ensures world.dirs - {path} == old(world).dirs - {path} && RecoveryKept(old(world), world)
      ensures Clear(world, path) || world == old(world)
      ensures ok ==> Clear(world, path)
      ensures reliable && calm && Tagged(old(world), NameFor(path), path) ==> ok
      ensures world == old(world) || (calm && Tagged(old(world), NameFor(path), path))
      ensures ok ==> calm && Tagged(old(world), NameFor(path), path)
    {
      var dockerSeen := *;
      if !path.AppVolume? || !calm || (!dockerSeen && !reliable) {
        return false;
      }
      var tags := VolumeTags(NameFor(path));
      if tags.None? || !(OwnershipTags(path) <= tags.value) {
        return false;
      }
      ok := SetAside(path);
    }

    method SetAside(path: Path) returns (ok: bool)
      requires path in world.dirs
      modifies this`world
      ensures world == old(world) || Recovered(world, old(world).dirs[path])
      ensures world == old(world).(dirs := world.dirs, recovery := world.recovery)
      ensures world.dirs - {path} == old(world).dirs - {path} && RecoveryKept(old(world), world)
      ensures Clear(world, path) || world == old(world)
      ensures ok ==> Clear(world, path)
      ensures reliable ==> ok
    {
      var renamed, made, restored := *, *, *;
      if !renamed && !reliable {
        return false;
      }
      UnusedKey(world.recovery.Keys);
      var unique: nat :| unique !in world.recovery;
      ghost var start := world;
      var files := world.dirs[path];
      world := world.(dirs := world.dirs - {path}, recovery := world.recovery[unique := files]);
      assert world.recovery[unique] == files;
      if made || reliable {
        world := world.(dirs := world.dirs[path := {}]);
        return true;
      }
      if restored {
        world := world.(dirs := world.dirs[path := files], recovery := world.recovery - {unique});
        assert world.dirs == start.dirs && world.recovery == start.recovery;
      }
      return false;
    }

    // ---- Creating a volume ------------------------------------------------------------------

    /** Removes a volume this invocation created; only the metadata afterwards decides. */
    method RemoveNewVolume(name: Name) returns (gone: bool)
      modifies this`world
      ensures world == old(world) || world == old(world).(volumes := old(world).volumes - {name})
      ensures gone ==> name !in world.volumes
      ensures WorldOk(old(world)) ==> WorldOk(world)
      ensures reliable && !InUse(old(world), name) ==> gone
    {
      var present := MetadataExists(name);
      if present.None? || !present.value {
        return present.Some?;
      }
      var ended := LvRemove(name);
      var remaining := MetadataExists(name);
      gone := remaining == Some(false);
    }

    /** Gives up on a new volume: `outcome` once it is certainly gone, an alarm otherwise. */
    method GiveUpNewVolume(name: Name, outcome: Outcome, ghost was: World) returns (r: Outcome)
      requires outcome == Done(false) || outcome == Failed
      requires world == was || Added(was, world, name)
      requires name !in was.volumes
      modifies this`world
      ensures r == outcome || r == Unavailable
      ensures world == was || (r == Unavailable && Added(was, world, name))
      ensures WorldOk(old(world)) ==> WorldOk(world)
      ensures reliable && !InUse(old(world), name) ==> r == outcome
    {
      var gone := RemoveNewVolume(name);
      assert was.volumes - {name} == was.volumes;
      r := if gone then outcome else Unavailable;
    }

    /** Creates and formats the volume of a path; on a failure nothing is left of it. */
    method CreateVolume(path: Path, desired: int) returns (failure: Option<Outcome>)
      requires NameFor(path) !in world.volumes
      requires Desired(path) == Some(desired)
      modifies this`world
      ensures failure != Some(Done(true))
      ensures failure.None? ==>
                var name := NameFor(path);
                Added(old(world), world, name) && world.volumes[name].data == Formatted({}) && WithinCap(path, world.volumes[name].size)
      ensures failure.Some? ==> world == old(world) || (failure == Some(Unavailable) && Added(old(world), world, NameFor(path)))
      ensures WorldOk(old(world)) ==> WorldOk(world)
      ensures reliable ==> failure.None? && world.volumes[NameFor(path)].size == Granted(desired)
    {
      var name := NameFor(path);
      ghost var was := world;
      var ended := LvCreate(name, desired);
      var r;
      if ended != Ok {
        r := GiveUpNewVolume(name, if ended == TimedOut then Failed else Done(false), was);
        return Some(r);
      }
      if path in caps {
        Alignment.CapSurvivesExtentRounding(pool, caps[path], sector, extent);
        var actual := VirtualSize(name);
        if actual.None? || actual.value > desired {
          r := GiveUpNewVolume(name, Done(false), was);
          return Some(r);
        }
      }
      ended := Mkfs(name);
      if ended != Ok {
        r := GiveUpNewVolume(name, if ended == TimedOut then Failed else Done(false), was);
        return Some(r);
      }
      return None;
    }

    // ---- Mounting ---------------------------------------------------------------------------

    /** Unmounts and removes a new volume; only then may default storage be used. */
    method RemoveMountedNewVolume(path: Path, ghost was: World) returns (gone: bool)
      requires Mounting(was, world, NameFor(path), path)
      modifies this`world
      ensures Mounting(was, world, NameFor(path), path)
      ensures gone ==> NameFor(path) !in world.volumes && path !in world.mounts
      ensures WorldOk(old(world)) ==> WorldOk(world)
      ensures reliable && !InUse(was, NameFor(path)) ==> gone
    {
      var name := NameFor(path);
      var mounted := FindMnt(path);
      match mounted {
      case Mounted(source) =>
        var same := SameBlockDevice(source, name);
        if !same {
          return false;
        }
        var ended := Umount(path);
        if ended != Ok {
          return false;
        }
      case NotMounted =>
      case _ =>
        return false;
      }
      UnusedElsewhere(was, world, name, path);
      gone := RemoveNewVolume(name);
    }

    /** After a failed mount of a new volume: it is mounted after all, or it is removed. */
    method ResolveNewVolumeMountFailure(path: Path, ghost was: World) returns (r: Outcome)
      requires Mounting(was, world, NameFor(path), path)
      modifies this`world
      ensures Mounting(was, world, NameFor(path), path) && r != Failed
      ensures r == Done(true) ==> OnVolume(world, NameFor(path), path) && Tagged(world, NameFor(path), path)
      ensures r == Done(false) ==> NameFor(path) !in world.volumes && path !in world.mounts
      ensures WorldOk(old(world)) ==> WorldOk(world)
    {
      var name := NameFor(path);
      var mounted := FindMnt(path);
      match mounted
      case Mounted(source) =>
        var same := SameBlockDevice(source, name);
        if !same {
          return Unavailable;
        }
        var remembered := RememberOwnedVolume(path);
        if remembered {
          return Done(true);
        }
        var gone := RemoveMountedNewVolume(path, was);
        r := if gone then Done(false) else Unavailable;
      case NotMounted =>
        var gone := RemoveNewVolume(name);
        r := if gone then Done(false) else Unavailable;
      case _ => r := Unavailable;
    }

    /** Makes the mount point and mounts the volume there. */
    method TryMount(path: Path, ghost was: World) returns (ended: Ended)
      requires Mounting(was, world, NameFor(path), path) && path !in world.mounts
      modifies this`world
      ensures Mounting(was, world, NameFor(path), path) && world.volumes == old(world).volumes
      ensures ended == Ok ==> OnVolume(world, NameFor(path), path)
      ensures WorldOk(old(world)) ==> WorldOk(world)
      ensures reliable && NameFor(path) in old(world).volumes ==> ended == Ok
    {
      ghost var before := world;
      var made := MakeDirs(path);
      DirectoryMade(was, before, world, NameFor(path), path);
      var fileSystemKnown := *;
      if !made || (!fileSystemKnown && !reliable) {
        return TimedOut;
      }
      before := world;
      ended := Mount(NameFor(path), path);
      MountMade(was, before, world, NameFor(path), path);
    }

    /** Mounts and tags a volume created in this invocation, or removes it again. */
    method MountNewVolume(path: Path, ghost was: World) returns (r: Outcome)
      requires Mounting(was, world, NameFor(path), path) && path !in world.mounts
      modifies this`world
      ensures Mounting(was, world, NameFor(path), path) && r != Failed
      ensures r == Done(true) ==> OnVolume(world, NameFor(path), path) && Tagged(world, NameFor(path), path)
      ensures r == Done(false) ==> NameFor(path) !in world.volumes && path !in world.mounts
      ensures WorldOk(old(world)) ==> WorldOk(world)
      ensures reliable && !InUse(was, NameFor(path)) && NameFor(path) in old(world).volumes ==> r == Done(path.AppVolume?)
    {
      var ended := TryMount(path, was);
      if ended != Ok {
        r := ResolveNewVolumeMountFailure(path, was);
        return;
      }
      var remembered := RememberOwnedVolume(path);
      if remembered {
        return Done(true);
      }
      var gone := RemoveMountedNewVolume(path, was);
      r := if gone then Done(false) else Unavailable;
    }

    /** Mounts a volume that existed before; it is never removed, only repaired once. */
    method MountExistingVolume(path: Path, capEnforced: bool, ghost was: World) returns (r: Outcome)
      requires Mounting(was, world, NameFor(path), path) && path !in world.mounts && NameFor(path) in world.volumes
      modifies this`world
      ensures Mounting(was, world, NameFor(path), path) && NameFor(path) in world.volumes
      ensures r == Unavailable || (r == Done(capEnforced) && OnVolume(world, NameFor(path), path))
      ensures WorldOk(old(world)) ==> WorldOk(world)
      ensures reliable ==> r == Done(capEnforced) && (path.AppVolume? ==> Tagged(world, NameFor(path), path))
    {
      var name := NameFor(path);
      var ended := TryMount(path, was);
      if ended == TimedOut {
        return Unavailable;
      }
      if ended == Refused {
        var repaired := RepairOwnedXfsVolume(path);
        if !repaired {
          return Unavailable;
        }
        ended := Mount(name, path);
        if ended != Ok {
          return Unavailable;
        }
      }
      var remembered := RememberOwnedVolume(path);
      r := Done(capEnforced);
    }

    // ---- Preparing a volume -------------------------------------------------------------------

    /** The volume's size is known, and within its cap. */
    method ConfirmCap(path: Path) returns (confirmed: bool)
      ensures confirmed ==> NameFor(path) in world.volumes && WithinCap(path, world.volumes[NameFor(path)].size)
      ensures reliable && path in caps && NameFor(path) in world.volumes ==> confirmed == WithinCap(path, world.volumes[NameFor(path)].size)
    {
      var desired := DesiredVolumeSize(path);
      var actual := VirtualSize(NameFor(path));
      confirmed := path in caps && desired.Some? && actual.Some? && actual.value <= desired.value;
    }

    /** The path is mounted already: adopt its volume, leave anything else alone. */
    method CheckMounted(path: Path, source: Source, allowCreate: bool, expectExisting: bool) returns (r: Outcome)
      requires WorldOk(world) && path in world.mounts && world.mounts[path] == source
      modifies this`world
      ensures WorldOk(world) && Retagged(old(world), world, NameFor(path), OwnershipTags(path)) && r != Failed
      ensures source != FromVolume(NameFor(path)) ==> world == old(world)
      ensures r == Done(true) ==>
                var name := NameFor(path);
                if source == FromVolume(name) then WithinCap(path, world.volumes[name].size)
                else !allowCreate && path !in caps && !expectExisting
      ensures expectExisting && r.Done? ==> OnVolume(world, NameFor(path), path)
      ensures reliable ==> r == Expected(old(world), path, allowCreate, expectExisting, false)
    {
      var name := NameFor(path);
      var same := SameBlockDevice(source, name);
      if !same {
        if expectExisting {
          return Unavailable;
        }
        return Done(path !in caps && !allowCreate);
      }
      var remembered := RememberOwnedVolume(path);
      if path !in caps {
        return Done(true);
      }
      var confirmed := ConfirmCap(path);
      r := Done(confirmed);
    }

    method NewVolume(path: Path) returns (r: Outcome)
      requires WorldOk(world) && NameFor(path) !in world.volumes && path !in world.mounts && Clear(world, path)
      modifies this`world
      ensures world.recovery == old(world).recovery
      ensures WorldOk(world) && EnsureEffect(old(world), world, NameFor(path), path)
      ensures r == Done(true) ==> Provisioned(path)
      ensures r == Done(false) || r == Failed ==> world.volumes.Keys == old(world).volumes.Keys
      ensures reliable ==> r == Done(Desired(path).Some? && path.AppVolume?)
      ensures reliable && r == Done(true) ==> Desired(path).Some? && world.volumes[NameFor(path)].size == Granted(Desired(path).value)
    {
      var name := NameFor(path);
      ghost var was := world;
      var desired := DesiredVolumeSize(path);
      if desired.None? {
        SameEffect(was, name, path);
        return Done(false);
      }
      var failure := CreateVolume(path, desired.value);
      ghost var created := world;
      if failure.Some? {
        CreatedEffect(was, created, name, path);
        return failure.value;
      }
      r := MountNewVolume(path, created);
      NewVolumeEffect(was, created, world, name, path);
    }

    /** A new volume of the path: tagged, formatted, mounted, and within its cap. */
    ghost predicate Provisioned(path: Path)
      reads this
    {
      var name := NameFor(path);
      && OnVolume(world, name, path) && Tagged(world, name, path)
      && world.volumes[name].data == Formatted({}) && WithinCap(path, world.volumes[name].size)
    }

    method ExistingVolume(path: Path) returns (r: Outcome)
      requires WorldOk(world) && NameFor(path) in world.volumes && path !in world.mounts && Clear(world, path)
      modifies this`world
      ensures world.recovery == old(world).recovery
      ensures WorldOk(world) && EnsureEffect(old(world), world, NameFor(path), path)
      ensures world.volumes.Keys == old(world).volumes.Keys
      ensures r == Unavailable || (r.Done? && OnVolume(world, NameFor(path), path))
      ensures r == Done(true) ==> WithinCap(path, world.volumes[NameFor(path)].size)
      ensures reliable ==> r == Done(WithinCap(path, old(world).volumes[NameFor(path)].size))
    {
      ghost var was := world;
      var enforced := true;
      if path in caps {
        enforced := ConfirmCap(path);
      }
      r := MountExistingVolume(path, enforced, was);
      ExistingVolumeEffect(was, world, NameFor(path), path);
    }

    /** The path is not mounted: create its volume, or mount the one it has. */
    method PrepareUnmounted(path: Path, allowCreate: bool, expectExisting: bool, recoverFallback: bool) returns (r: Outcome)
      requires WorldOk(world) && path !in world.mounts
      modifies this`world
      ensures world.recovery != old(world).recovery ==> recoverFallback && calm && Tagged(old(world), NameFor(path), path)
      ensures WorldOk(world) && EnsureEffect(old(world), world, NameFor(path), path)
      ensures !allowCreate || expectExisting || r == Done(false) || r == Failed ==> world.volumes.Keys == old(world).volumes.Keys
      ensures r == Done(true) ==>
                && OnVolume(world, NameFor(path), path) && WithinCap(path, world.volumes[NameFor(path)].size)
                && (NameFor(path) !in old(world).volumes ==> Provisioned(path))
                && (NameFor(path) !in old(world).volumes && reliable ==>
                     Desired(path).Some? && world.volumes[NameFor(path)].size == Granted(Desired(path).value))
      ensures expectExisting && r.Done? ==> OnVolume(world, NameFor(path), path)
      ensures reliable ==> r == Expected(old(world), path, allowCreate, expectExisting, recoverFallback)
    {
      var name := NameFor(path);
      SameEffect(world, name, path);
      var present := MetadataExists(name);
      if present.None? {
        return if expectExisting then Unavailable else Done(false);
      }
      if expectExisting && !present.value {
        return Unavailable;
      }
      var listed := *;
      if !listed && !reliable {
        return Failed;
      }
      if !Clear(world, path) {
        if !present.value {
          return Done(false);
        }
        r := RecoverThenMount(path, recoverFallback);
      } else if present.value {
        r := ExistingVolume(path);
      } else if allowCreate {
        r := NewVolume(path);
      } else {
        r := Done(false);
      }
    }

    /** Files lie where an existing volume belongs: set them aside if that is allowed, never hide them. */
    method RecoverThenMount(path: Path, recoverFallback: bool) returns (r: Outcome)
      requires WorldOk(world) && path !in world.mounts && NameFor(path) in world.volumes && !Clear(world, path)
      modifies this`world
      ensures world.recovery != old(world).recovery ==> recoverFallback && calm && Tagged(old(world), NameFor(path), path)
      ensures WorldOk(world) && EnsureEffect(old(world), world, NameFor(path), path)
      ensures world.volumes.Keys == old(world).volumes.Keys
      ensures r == Unavailable || (r.Done? && OnVolume(world, NameFor(path), path))
      ensures r == Done(true) ==> WithinCap(path, world.volumes[NameFor(path)].size)
      ensures reliable ==> r == Expected(old(world), path, true, false, recoverFallback)
    {
      var name := NameFor(path);
      ghost var was := world;
      if !recoverFallback {
        SameEffect(was, name, path);
        return Unavailable;
      }
      var kept := PreserveOwnedVolumeFallback(path);
      ghost var mid := world;
      SetAsideEffect(was, mid, name, path);
      if !kept {
        return Unavailable;
      }
      r := ExistingVolume(path);
      EffectTrans(was, mid, world, name, path);
    }

    /** No volume is expected, no cap and no creation asked for, and something else is mounted at the path. */
    predicate LeavesForeignMount(w: World, path: Path, allowCreate: bool, expectExisting: bool)
      reads this
    {
      !allowCreate && path !in caps && !expectExisting && path in w.mounts && w.mounts[path] != FromVolume(NameFor(path))
    }

    /** What happens under the volume lock: a mounted path is checked, another prepared. */
    method EnsureLocked(path: Path, allowCreate: bool, expectExisting: bool, recoverFallback: bool) returns (r: Outcome)
      requires WorldOk(world)
      modifies this`world
      ensures world.recovery != old(world).recovery ==> recoverFallback && calm && Tagged(old(world), NameFor(path), path)
      ensures WorldOk(world) && EnsureEffect(old(world), world, NameFor(path), path)
      ensures !allowCreate || expectExisting || r == Done(false) || r == Failed ==> world.volumes.Keys == old(world).volumes.Keys
      ensures r == Done(true) ==>
                if old(LeavesForeignMount(world, path, allowCreate, expectExisting)) then world == old(world) && !OnVolume(world, NameFor(path), path)
                else OnVolume(world, NameFor(path), path) && WithinCap(path, world.volumes[NameFor(path)].size)
      ensures r == Done(true) && NameFor(path) !in old(world).volumes && NameFor(path) in world.volumes ==>
                && Provisioned(path)
                && (reliable ==> Desired(path).Some? && world.volumes[NameFor(path)].size == Granted(Desired(path).value))
      ensures expectExisting && r.Done? ==> OnVolume(world, NameFor(path), path)
      ensures reliable ==> r == Expected(old(world), path, allowCreate, expectExisting, recoverFallback)
    {
      var name := NameFor(path);
      ghost var was := world;
      SameEffect(was, name, path);
      var mounted := FindMnt(path);
      match mounted {
        case Raised => r := if expectExisting then Unavailable else Failed;
        case Unknown => r := if expectExisting then Unavailable else Done(false);
        case Mounted(source) =>
          r := CheckMounted(path, source, allowCreate, expectExisting);
          RetaggedEffect(was, world, name, path);
        case NotMounted => r := PrepareUnmounted(path, allowCreate, expectExisting, recoverFallback);
      }
    }

    /**
      Provisions and mounts the volume of a path, where that is possible and safe.
      Whatever fails on the way, nothing that existed is destroyed or hidden. The answer
      True means that the path is on its own volume, within its cap, but for calls that
      leave a foreign mount alone; those answer True all the same. A new volume belongs to
      the app in the path.
    */
    method EnsureVolume(path: Path, allowCreate: bool, expectExisting: bool, recoverFallback: bool) returns (r: Outcome)
      requires WorldOk(world)
      modifies this`world
      ensures WorldOk(world) && EnsureEffect(old(world), world, NameFor(path), path)
      ensures !allowCreate || expectExisting || r == Done(false) || r == Failed ==> world.volumes.Keys == old(world).volumes.Keys
      ensures r == Done(true) ==>
                if old(LeavesForeignMount(world, path, allowCreate, expectExisting)) then world == old(world) && !OnVolume(world, NameFor(path), path)
                else OnVolume(world, NameFor(path), path) && WithinCap(path, world.volumes[NameFor(path)].size)
      ensures r == Done(true) && OnVolume(world, NameFor(path), path) ==> Sized(path, NameFor(path) !in old(world).volumes)
      ensures r == Done(true) && NameFor(path) !in old(world).volumes && NameFor(path) in world.volumes ==>
                Provisioned(path) && path.AppVolume? && OwnedBy(world, NameFor(path), path.app)
      ensures world.recovery != old(world).recovery ==>
                recoverFallback && calm && path.AppVolume? && OwnedBy(old(world), NameFor(path), path.app)
      ensures expectExisting && r.Done? ==> OnVolume(world, NameFor(path), path)
      ensures reliable && old(LeavesForeignMount(world, path, allowCreate, expectExisting)) ==> r == Done(true)
      ensures reliable ==> r == Expected(old(world), path, allowCreate, expectExisting, recoverFallback)
    {
      ghost var was := world;
      var available := HasThinPool();
      if !available {
        SameEffect(world, NameFor(path), path);
        return if expectExisting then Unavailable else Done(false);
      }
      r := EnsureLocked(path, allowCreate, expectExisting, recoverFallback);
      if r == Done(true) && OnVolume(world, NameFor(path), path) {
        SizeIsRight(path, NameFor(path) !in was.volumes);
      }
      TaggedIsOwned(was, NameFor(path), path);
      TaggedIsOwned(world, NameFor(path), path);
    }

    /** A capped volume is within its percentage of the pool; in a reliable environment a new one without a cap has the pool's size. */
    ghost predicate Sized(path: Path, isNew: bool)
      reads this
      requires NameFor(path) in world.volumes
    {
      var size := world.volumes[NameFor(path)].size;
      && (path in caps ==> size as real * 100.0 <= pool as real * caps[path])
      && (path !in caps && isNew && reliable && extent > 0 ==> pool <= size < pool + extent)
    }

    lemma SizeIsRight(path: Path, isNew: bool)
      requires NameFor(path) in world.volumes && WithinCap(path, world.volumes[NameFor(path)].size)
      requires isNew && reliable ==> Desired(path).Some? && world.volumes[NameFor(path)].size == Granted(Desired(path).value)
      ensures Sized(path, isNew)
    {
      if path in caps {
        CapIsShare(path, world.volumes[NameFor(path)].size);
      } else if extent > 0 {
        Alignment.RoundUpBounds(pool, extent);
      }
    }

    /** A size within the cap is within that percentage of the pool. */
    lemma CapIsShare(path: Path, size: int)
      requires path in caps && WithinCap(path, size)
      ensures size as real * 100.0 <= pool as real * caps[path]
    {
      Alignment.SmallerIsWithin(pool, caps[path], sector, extent, size);
    }
  }

  lemma TaggedIsOwned(w: World, name: Name, path: Path)
    ensures Tagged(w, name, path) <==> path.AppVolume? && OwnedBy(w, name, path.app)
  {
  }

  lemma DirectoryMade(was: World, before: World, now: World, name: Name, path: Path)
    requires Mounting(was, before, name, path)
    requires now == before || (path !in before.dirs && now == before.(dirs := before.dirs[path := {}]))
    ensures Mounting(was, now, name, path)
  {
    assert now.dirs - {path} == before.dirs - {path};
  }

  lemma MountMade(was: World, before: World, now: World, name: Name, path: Path)
    requires Mounting(was, before, name, path)
    requires now == before || now == before.(mounts := before.mounts[path := FromVolume(name)])
    ensures Mounting(was, now, name, path)
  {
    assert now.mounts - {path} == before.mounts - {path};
  }

  lemma UnusedElsewhere(was: World, now: World, name: Name, path: Path)
    requires Mounting(was, now, name, path) && path !in now.mounts
    ensures InUse(now, name) ==> InUse(was, name)
  {
    if p :| p in now.mounts && now.mounts[p] == FromVolume(name) {
      assert p in now.mounts - {path} && p in was.mounts - {path};
    }
  }

  lemma UnusedKey(keys: set<nat>)
    ensures exists k: nat :: k !in keys
  {
    if keys != {} {
      var top := Largest(keys);
      assert top + 1 !in keys;
    } else {
      assert 0 !in keys;
    }
  }

  lemma {:induction false} Largest(keys: set<nat>) returns (top: nat)
    requires keys != {}
    ensures top in keys && forall k :: k in keys ==> k <= top
  {
    var k :| k in keys;
    var rest := keys - {k};
    if rest == {} {
      assert keys == {k};
      top := k;
    } else {
      assert keys == rest + {k};
      top := Largest(rest);
      top := if top < k then k else top;
    }
  }

  /** Nothing was destroyed or hidden, and only this volume and path were touched. */
  ghost predicate EnsureEffect(was: World, now: World, name: Name, path: Path) {
    Kept(was, now) && Near(was, now, name, path)
  }

  lemma SameEffect(w: World, name: Name, path: Path)
    ensures EnsureEffect(w, w, name, path)
  {
    KeptRefl(w);
  }

  lemma CreatedEffect(was: World, now: World, name: Name, path: Path)
    requires now == was || Added(was, now, name)
    ensures EnsureEffect(was, now, name, path)
  {
    if now == was {
      SameEffect(was, name, path);
    } else {
      assert now.volumes - {name} == was.volumes - {name};
      NearKeeps(was, now, name, path);
    }
  }

  lemma NewVolumeEffect(was: World, created: World, now: World, name: Name, path: Path)
    requires Added(was, created, name) && Mounting(created, now, name, path)
    requires path !in was.mounts && Clear(was, path)
    ensures EnsureEffect(was, now, name, path)
    ensures name !in now.volumes ==> now.volumes.Keys == was.volumes.Keys
  {
    assert created.volumes - {name} == was.volumes - {name};
    NearKeeps(was, now, name, path);
    if name !in now.volumes {
      assert now.volumes - {name} == now.volumes && was.volumes - {name} == was.volumes;
    }
  }

  lemma ExistingVolumeEffect(was: World, now: World, name: Name, path: Path)
    requires name in was.volumes && name in now.volumes && Mounting(was, now, name, path)
    requires path !in was.mounts && Clear(was, path)
    ensures EnsureEffect(was, now, name, path) && now.volumes.Keys == was.volumes.Keys
  {
    NearKeeps(was, now, name, path);
    KeysNear(was.volumes, now.volumes, name);
  }

  lemma KeysNear(a: map<Name, Volume>, b: map<Name, Volume>, name: Name)
    requires a - {name} == b - {name} && (name in a <==> name in b)
    ensures a.Keys == b.Keys
  {
    forall n
      ensures n in a <==> n in b
    {
      assert n != name ==> (n in a <==> n in a - {name}) && (n in b <==> n in b - {name});
    }
  }

  lemma RetaggedEffect(was: World, now: World, name: Name, path: Path)
    requires Retagged(was, now, name, OwnershipTags(path))
    ensures EnsureEffect(was, now, name, path) && now.volumes.Keys == was.volumes.Keys
  {
    if now == was {
      SameEffect(was, name, path);
    } else {
      assert now.volumes - {name} == was.volumes - {name};
      NearKeeps(was, now, name, path);
    }
  }

  lemma SetAsideEffect(was: World, now: World, name: Name, path: Path)
    requires path in was.dirs && path !in was.mounts
    requires now == was.(dirs := now.dirs, recovery := now.recovery)
    requires now.dirs - {path} == was.dirs - {path} && RecoveryKept(was, now)
    requires now == was || Recovered(now, was.dirs[path])
    ensures EnsureEffect(was, now, name, path)
  {
    NearKeeps(was, now, name, path);
  }

  lemma EffectTrans(a: World, b: World, c: World, name: Name, path: Path)
    requires EnsureEffect(a, b, name, path) && EnsureEffect(b, c, name, path)
    ensures EnsureEffect(a, c, name, path)
  {
    KeptTrans(a, b, c);
  }
}
