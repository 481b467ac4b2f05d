/**
  What the volume manager acts on, and what every one of its operations must keep:
  logical volumes with their tags, mounts, app directories on the primary file
  system, and directories set aside for recovery.
*/
module VolumeWorld {

  type Instance = nat
  type File = nat
  type Dir = set<File>

  /** Only the volume root of an app instance is ever owned. */
  datatype Path = AppVolume(app: Instance, volume: nat) | OtherPath(id: nat)

  /** `Managed` names carry the prefix reserved for app volumes. */
  datatype Name = Managed(id: nat) | Unmanaged(id: nat)

  datatype Tag = ManagedTag | OwnerTag(app: Instance) | OtherTag(id: nat)

  /** A file system holds files. */
  datatype Data = Unformatted | Formatted(files: Dir)

  datatype Volume = Volume(size: int, tags: set<Tag>, data: Data)

  datatype Source = FromVolume(name: Name) | Foreign(id: nat)

  datatype World = World(volumes: map<Name, Volume>, mounts: map<Path, Source>,
                         dirs: map<Path, Dir>, recovery: map<nat, Dir>)

  /** A mounted volume exists: LVM refuses to remove one in use. */
  ghost predicate WorldOk(w: World) {
    forall p :: p in w.mounts && w.mounts[p].FromVolume? ==> w.mounts[p].name in w.volumes
  }

  predicate InUse(w: World, name: Name) {
    exists p :: p in w.mounts && w.mounts[p] == FromVolume(name)
  }

  // ---- What is never lost -----------------------------------------------------------------

  /** The volume is still there, with its size, its data and all its tags. */
  ghost predicate VolumeKept(was: World, now: World, n: Name) {
    && n in now.volumes && n in was.volumes
    && now.volumes[n].size == was.volumes[n].size && now.volumes[n].data == was.volumes[n].data
    && was.volumes[n].tags <= now.volumes[n].tags
  }

  ghost predicate VolumesKept(was: World, now: World) {
    forall n :: n in was.volumes ==> VolumeKept(was, now, n)
  }

  ghost predicate RecoveryKept(was: World, now: World) {
    forall k :: k in was.recovery ==> k in now.recovery && now.recovery[k] == was.recovery[k]
  }

  ghost predicate MountsKept(was: World, now: World) {
    forall p :: p in was.mounts ==> p in now.mounts && now.mounts[p] == was.mounts[p]
  }

  ghost predicate Recovered(w: World, files: Dir) {
    exists k :: k in w.recovery && w.recovery[k] == files
  }

  /**
    The files of a directory are still there, and no more hidden than they were, or lie
    whole in the recovery area.
   */
  ghost predicate FilesKept(was: World, now: World, p: Path) {
    p in was.dirs && was.dirs[p] != {} ==>
      || (p in now.dirs && now.dirs[p] == was.dirs[p] && (p !in was.mounts ==> p !in now.mounts))
      || Recovered(now, was.dirs[p])
  }

  ghost predicate AllFilesKept(was: World, now: World) {
    forall p :: FilesKept(was, now, p)
  }

  /** Nothing that existed was destroyed or hidden. */
  ghost predicate Kept(was: World, now: World) {
    VolumesKept(was, now) && RecoveryKept(was, now) && MountsKept(was, now) && AllFilesKept(was, now)
  }

  lemma KeptRefl(w: World)
    ensures Kept(w, w)
  {
  }

  lemma KeptTrans(a: World, b: World, c: World)
    requires Kept(a, b) && Kept(b, c)
    ensures Kept(a, c)
  {
    forall n | n in a.volumes
      ensures VolumeKept(a, c, n)
    {
      assert VolumeKept(a, b, n) && VolumeKept(b, c, n);
    }
    forall p
      ensures FilesKept(a, c, p)
    {
      assert FilesKept(a, b, p) && FilesKept(b, c, p);
    }
  }

  /** Only the given volume and path differ, apart from what is set aside for recovery. */
  ghost predicate Near(was: World, now: World, name: Name, path: Path) {
    && now.volumes - {name} == was.volumes - {name}
    && now.mounts - {path} == was.mounts - {path}
    && now.dirs - {path} == was.dirs - {path}
    && RecoveryKept(was, now)
  }

  lemma NearKeeps(was: World, now: World, name: Name, path: Path)
    requires Near(was, now, name, path)
    requires name in was.volumes ==> VolumeKept(was, now, name)
    requires path in was.mounts ==> path in now.mounts && now.mounts[path] == was.mounts[path]
    requires FilesKept(was, now, path)
    ensures Kept(was, now)
  {
    forall n | n in was.volumes && n != name
      ensures VolumeKept(was, now, n)
    {
      assert n in was.volumes - {name} && (was.volumes - {name})[n] == (now.volumes - {name})[n];
    }
    forall p | p in was.mounts && p != path
      ensures p in now.mounts && now.mounts[p] == was.mounts[p]
    {
      assert p in was.mounts - {path} && (was.mounts - {path})[p] == (now.mounts - {path})[p];
    }
    forall p | p != path
      ensures FilesKept(was, now, p)
    {
      if p in was.dirs {
        assert p in was.dirs - {path} && (was.dirs - {path})[p] == (now.dirs - {path})[p];
      }
      if p in now.mounts {
        assert p in now.mounts - {path};
      }
    }
  }
}
