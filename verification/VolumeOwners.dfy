/**
  Who owns a volume, by the app in its path: a volume provisioned or adopted for an app
  lives as long as that app does, and goes when its last owner is gone.
*/
module VolumeOwners {
  import opened Sequences
  import opened VolumeWorld
  import opened Volumes
  import opened VolumePasses

  /** In pass `i` the volume at this name became, or was found to be, that of `app`. */
  ghost predicate Given(m: VolumeManager, worlds: seq<World>, passes: seq<Pass>, i: nat, app: Instance, v: nat)
    requires i < |passes| < |worlds|
  {
    var path := AppVolume(app, v);
    && m.NameFor(path) in worlds[i + 1].volumes
    && match passes[i]
       case Ensuring(ensured, answered) => ensured == path && answered && m.NameFor(path) !in worlds[i].volumes
       case Reclaiming(seeds, _, _, smooth) => path in seeds && smooth
       case _ => false
  }

  lemma GivenIsOwned(m: VolumeManager, worlds: seq<World>, passes: seq<Pass>, i: nat, app: Instance, v: nat)
    requires PassRun(m, worlds, passes) && i < |passes| && Given(m, worlds, passes, i, app, v)
    ensures OwnedBy(worlds[i + 1], m.NameFor(AppVolume(app, v)), app)
  {
    assert PassAt(m, worlds, passes, i);
  }

  /**
    A volume provisioned for an app, or adopted for it by a pass whose commands all
    succeeded, is there with all its files as long as that app is in every state given
    to reclaim.
  */
  lemma AppKeepsItsVolume(m: VolumeManager, worlds: seq<World>, passes: seq<Pass>, i: nat, k: nat, app: Instance, v: nat)
    requires PassRun(m, worlds, passes) && i < k <= |passes| && Given(m, worlds, passes, i, app, v)
    requires forall j :: i < j < k && passes[j].Reclaiming? ==> app in passes[j].live
    ensures var n := m.NameFor(AppVolume(app, v));
            && n in worlds[k].volumes && worlds[k].volumes[n].size == worlds[i + 1].volumes[n].size
            && ManagedTag in worlds[k].volumes[n].tags && OwnerTag(app) in worlds[k].volumes[n].tags
            && match worlds[i + 1].volumes[n].data
               case Unformatted => worlds[k].volumes[n].data == Unformatted
               case Formatted(files) => worlds[k].volumes[n].data.Formatted? && files <= worlds[k].volumes[n].data.files
  {
    GivenIsOwned(m, worlds, passes, i, app, v);
    LiveVolumeSurvives(m, worlds, passes, i + 1, k, m.NameFor(AppVolume(app, v)), app);
  }

  /**
    It is removed by the next pass whose commands all succeed, once neither that app nor
    any other app that owns it, by a tag or by a known path, is in the state.
  */
  lemma DeletedAppLosesItsVolume(m: VolumeManager, worlds: seq<World>, passes: seq<Pass>, i: nat, k: nat, app: Instance, v: nat)
    requires PassRun(m, worlds, passes) && i < k < |passes| && Given(m, worlds, passes, i, app, v)
    requires var n := m.NameFor(AppVolume(app, v));
             && (forall j :: i < j <= k ==> n in worlds[j].volumes)
             && passes[k].Reclaiming? && passes[k].smooth
             && (forall a :: a in passes[k].live ==> OwnerTag(a) !in worlds[k].volumes[n].tags)
             && (forall p :: p in passes[k].seeds && p.AppVolume? && m.NameFor(p) == n ==> p.app !in passes[k].live)
    ensures m.NameFor(AppVolume(app, v)) !in worlds[k + 1].volumes
  {
    var n := m.NameFor(AppVolume(app, v));
    GivenIsOwned(m, worlds, passes, i, app, v);
    TagsGrow(m, worlds, passes, i + 1, k, n);
    assert PassAt(m, worlds, passes, k);
    if n in worlds[k + 1].volumes {
      StillOwnedOnly(m, worlds[k], worlds[k + 1], passes[k], n, app);
      assert false;
    }
  }

  /** A volume that a smooth pass leaves without a live owner would be an orphan. */
  lemma StillOwnedOnly(m: VolumeManager, was: World, now: World, pass: Pass, n: Name, app: Instance)
    requires PassEffect(m, was, now, pass) && pass.Reclaiming? && n in was.volumes && n in now.volumes && n.Managed?
    requires OwnedBy(was, n, app)
    requires forall a :: a in pass.live ==> OwnerTag(a) !in was.volumes[n].tags
    requires forall p :: p in pass.seeds && p.AppVolume? && m.NameFor(p) == n ==> p.app !in pass.live
    ensures Orphan(n, now.volumes[n].tags, pass.live)
  {
    assert VolumeAdopted(m, was, now, pass.seeds, n);
    assert app in Owners(now.volumes[n].tags);
    forall a | a in pass.live
      ensures OwnerTag(a) !in now.volumes[n].tags
    {
      assert OwnerTag(a) !in AdoptedTags(m, pass.seeds, n);
    }
  }

  /**
    Whatever fails: a reclaim pass removes a volume only if it has one of Reefy's names,
    no app of the state owns it by a tag, and it carries Reefy's tags or belongs to a
    known path. And mounts go only with such volumes.
  */
  lemma RemovedHadNoLiveOwner(m: VolumeManager, worlds: seq<World>, passes: seq<Pass>, k: nat, n: Name)
    requires PassRun(m, worlds, passes) && k < |passes| && passes[k].Reclaiming?
    requires n in worlds[k].volumes && n !in worlds[k + 1].volumes
    ensures n.Managed? && forall a :: a in passes[k].live ==> OwnerTag(a) !in worlds[k].volumes[n].tags
    ensures || (ManagedTag in worlds[k].volumes[n].tags && exists a :: OwnerTag(a) in worlds[k].volumes[n].tags)
            || exists p :: p in passes[k].seeds && p.AppVolume? && m.NameFor(p) == n
  {
    assert PassAt(m, worlds, passes, k);
    MayReclaimMeans(m, worlds[k], passes[k].seeds, passes[k].live, n);
  }

  lemma MayReclaimMeans(m: VolumeManager, was: World, seeds: seq<Path>, live: set<Instance>, n: Name)
    requires MayReclaim(m, was, seeds, live, n)
    ensures n.Managed? && forall a :: a in live ==> OwnerTag(a) !in was.volumes[n].tags
    ensures || (ManagedTag in was.volumes[n].tags && exists a :: OwnerTag(a) in was.volumes[n].tags)
            || exists p :: p in seeds && p.AppVolume? && m.NameFor(p) == n
  {
    var tags :| was.volumes[n].tags <= tags <= was.volumes[n].tags + AdoptedTags(m, seeds, n) && Orphan(n, tags, live);
    forall a | a in live
      ensures OwnerTag(a) !in was.volumes[n].tags
    {
      assert a !in Owners(tags);
    }
    var a :| a in Owners(tags);
    if ManagedTag !in was.volumes[n].tags {
      assert ManagedTag in AdoptedTags(m, seeds, n);
    } else if OwnerTag(a) !in was.volumes[n].tags {
      assert OwnerTag(a) in AdoptedTags(m, seeds, n);
    }
  }

  /** After a pass whose commands all succeed, every volume of Reefy's with an owner has one in the state. */
  lemma SmoothPassLeavesLive(m: VolumeManager, worlds: seq<World>, passes: seq<Pass>, k: nat, n: Name, a: Instance)
    returns (owner: Instance)
    requires PassRun(m, worlds, passes) && k < |passes| && passes[k].Reclaiming? && passes[k].smooth
    requires n in worlds[k + 1].volumes && n.Managed?
    requires ManagedTag in worlds[k + 1].volumes[n].tags && OwnerTag(a) in worlds[k + 1].volumes[n].tags
    ensures owner in passes[k].live && OwnerTag(owner) in worlds[k + 1].volumes[n].tags
  {
    assert PassAt(m, worlds, passes, k);
    var tags := worlds[k + 1].volumes[n].tags;
    assert a in Owners(tags) && !Orphan(n, tags, passes[k].live);
    owner :| owner in Owners(tags) && owner in passes[k].live;
  }
}
