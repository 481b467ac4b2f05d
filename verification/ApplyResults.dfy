/**
  The persistent result record of each apply request: an in-memory table, its
  files, and the bounded history of finished requests.
 */
module ApplyResults {
  import opened Sequences

  /** A canonical UUID; comparing the fixed-width text is comparing the number. */
  type RequestId = nat

  datatype Status = Queued | Running | Succeeded | SucceededWithWarnings | Failed | Superseded {
    predicate Terminal() {
      !Queued? && !Running?
    }
  }

  datatype Kind = Apply | Reconcile

  datatype Record = Record(kind: Kind, status: Status, applied: bool, createdAt: int, updatedAt: int)

  type Table = map<RequestId, Record>

  predicate Finished(t: Table, id: RequestId) {
    id in t && t[id].status.Terminal()
  }

  function FinishedIds(t: Table): set<RequestId> {
    set id | id in t.Keys && Finished(t, id)
  }

  /** The history's order: by update time, then by id. */
  predicate Newer(t: Table, a: RequestId, b: RequestId)
    requires a in t && b in t
  {
    t[a].updatedAt > t[b].updatedAt || (t[a].updatedAt == t[b].updatedAt && a > b)
  }

  /** How many finished requests are newer than `id`. */
  function Rank(t: Table, id: RequestId): nat
    requires id in t
  {
    |set other | other in FinishedIds(t) && Newer(t, other, id)|
  }

  /** Finished requests beyond the `limit` newest. */
  function Expired(t: Table, limit: nat): set<RequestId> {
    set id | id in FinishedIds(t) && Rank(t, id) >= limit
  }

  function Pruned(t: Table, limit: nat): Table {
    t - Expired(t, limit)
  }

  function NewRecord(kind: Kind, now: int): Record {
    Record(kind, Queued, false, now, now)
  }

  function Changed(r: Record, status: Status, applied: bool, now: int): Record {
    r.(status := status, applied := applied, updatedAt := now)
  }

  /** The table after `create`; a record that could not be written is withdrawn. */
  function AfterCreate(t: Table, id: RequestId, kind: Kind, now: int, written: bool): Table {
    if id in t || !written then t else t[id := NewRecord(kind, now)]
  }

  /** The table after `update`; only a terminal status prunes. */
  function AfterUpdate(t: Table, limit: nat, id: RequestId, status: Status, applied: bool, now: int): Table {
    if id !in t then t
    else
      var changed := t[id := Changed(t[id], status, applied, now)];
      if status.Terminal() then Pruned(changed, limit) else changed
  }

  /** Nothing is left queued or running: such records failed, the others are as they were or expired. */
  ghost predicate Recovered(loaded: Table, t: Table) {
    && t.Keys <= loaded.Keys
    && forall id :: id in t ==>
         if loaded[id].status.Terminal() then t[id] == loaded[id]
         else t[id].status == Failed && t[id] == Changed(loaded[id], Failed, loaded[id].applied, t[id].updatedAt)
  }

  // ---- The history bound ------------------------------------------------------

  /** Newest first. */
  ghost predicate NewestFirst(t: Table, ids: seq<RequestId>) {
    && (forall i :: 0 <= i < |ids| ==> ids[i] in t)
    && (forall i, j :: 0 <= i < j < |ids| ==> Newer(t, ids[i], ids[j]))
  }

  /** In the sorted history a request's rank is its position. */
  lemma RankIsPosition(t: Table, ids: seq<RequestId>, i: nat)
    requires NewestFirst(t, ids) && ToSet(ids) == FinishedIds(t) && i < |ids|
    ensures Rank(t, ids[i]) == i
  {
    var newer := set other | other in FinishedIds(t) && Newer(t, other, ids[i]);
    forall other | other in newer
      ensures other in ToSet(ids[..i])
    {
      assert other in ToSet(ids);
      var k :| 0 <= k < |ids| && ids[k] == other;
    }
    forall other | other in ToSet(ids[..i])
      ensures other in newer
    {
      var k :| 0 <= k < i && ids[..i][k] == other;
      assert ids[k] in ToSet(ids);
    }
    assert newer == ToSet(ids[..i]);
    assert Distinct(ids[..i]);
    DistinctSize(ids[..i]);
  }

  /** The part of the sorted history that is pruned. */
  function Surplus(ids: seq<RequestId>, limit: nat): seq<RequestId> {
    if limit <= |ids| then ids[limit..] else []
  }

  lemma ExpiredAt(t: Table, ids: seq<RequestId>, limit: nat, i: nat)
    requires NewestFirst(t, ids) && ToSet(ids) == FinishedIds(t) && i < |ids|
    ensures ids[i] in Expired(t, limit) <==> limit <= i
  {
    RankIsPosition(t, ids, i);
    assert ids[i] in ToSet(ids);
  }

  lemma SurplusAt(ids: seq<RequestId>, limit: nat, i: nat)
    requires i < |ids| && Distinct(ids)
    ensures ids[i] in Surplus(ids, limit) <==> limit <= i
  {
    if limit <= i {
      assert Surplus(ids, limit)[i - limit] == ids[i];
    }
  }

  lemma NewestAreDistinct(t: Table, ids: seq<RequestId>)
    requires NewestFirst(t, ids)
    ensures Distinct(ids)
  {
  }

  lemma ExpiredIsSurplus(t: Table, ids: seq<RequestId>, limit: nat)
    requires NewestFirst(t, ids) && ToSet(ids) == FinishedIds(t)
    ensures Expired(t, limit) == ToSet(Surplus(ids, limit))
  {
    NewestAreDistinct(t, ids);
    forall id
      ensures id in Expired(t, limit) <==> id in Surplus(ids, limit)
    {
      if id in ToSet(ids) {
        var i :| 0 <= i < |ids| && ids[i] == id;
        ExpiredAt(t, ids, limit, i);
        SurplusAt(ids, limit, i);
      }
    }
  }

  /** Pruning removes what lies beyond the limit of the sorted history, and keeps as much as the limit allows. */
  lemma ExpiredIsSuffix(t: Table, ids: seq<RequestId>, limit: nat)
    requires NewestFirst(t, ids) && ToSet(ids) == FinishedIds(t)
    ensures Expired(t, limit) == ToSet(Surplus(ids, limit))
    ensures |FinishedIds(Pruned(t, limit))| == if limit <= |ids| then limit else |ids|
  {
    ExpiredIsSurplus(t, ids, limit);
    NewestAreDistinct(t, ids);
    var kept := if limit <= |ids| then ids[..limit] else ids;
    forall id
      ensures id in FinishedIds(Pruned(t, limit)) <==> id in kept
    {
      KeptAt(t, ids, limit, kept, id);
    }
    assert FinishedIds(Pruned(t, limit)) == ToSet(kept);
    DistinctSize(kept);
  }

  lemma KeptAt(t: Table, ids: seq<RequestId>, limit: nat, kept: seq<RequestId>, id: RequestId)
    requires NewestFirst(t, ids) && Distinct(ids) && ToSet(ids) == FinishedIds(t)
    requires kept == if limit <= |ids| then ids[..limit] else ids
    requires Expired(t, limit) == ToSet(Surplus(ids, limit))
    ensures id in FinishedIds(Pruned(t, limit)) <==> id in kept
  {
    if id in ToSet(ids) {
      var i :| 0 <= i < |ids| && ids[i] == id;
      SurplusAt(ids, limit, i);
      assert i < |kept| ==> kept[i] == id;
    }
  }

  /** Pruning never touches unfinished requests, and drops only requests older than every one it keeps. */
  lemma PruneMeaning(t: Table, limit: nat)
    ensures forall id :: id in t && !Finished(t, id) ==> id in Pruned(t, limit)
    ensures forall id :: id in Pruned(t, limit) ==> id in t && Pruned(t, limit)[id] == t[id]
    ensures forall gone, kept :: gone in Expired(t, limit) && Finished(Pruned(t, limit), kept) ==> Newer(t, kept, gone)
    ensures forall id :: id in t && t[id].status in {Queued, Running} ==> id in Pruned(t, limit)
    ensures forall gone, kept :: gone in t && gone !in Pruned(t, limit) && kept in Pruned(t, limit) && t[kept].status !in {Queued, Running} ==>
              t[gone].updatedAt < t[kept].updatedAt || (t[gone].updatedAt == t[kept].updatedAt && gone < kept)
  {
    forall gone, kept | gone in Expired(t, limit) && Finished(Pruned(t, limit), kept)
      ensures Newer(t, kept, gone)
    {
      if !Newer(t, kept, gone) {
        var aboveGone := set other | other in FinishedIds(t) && Newer(t, other, gone);
        var aboveKept := set other | other in FinishedIds(t) && Newer(t, other, kept);
        assert aboveGone <= aboveKept;
        SubsetSize(aboveGone, aboveKept);
      }
    }
    forall gone, kept | gone in t && gone !in Pruned(t, limit) && kept in Pruned(t, limit) && t[kept].status !in {Queued, Running}
      ensures t[gone].updatedAt < t[kept].updatedAt || (t[gone].updatedAt == t[kept].updatedAt && gone < kept)
    {
      assert Finished(Pruned(t, limit), kept) && gone in Expired(t, limit);
      assert Newer(t, kept, gone);
    }
  }

  // ---- The store ------------------------------------------------------------

  /** Outcome of the file operations of one call: whether the write landed, and which unlinks failed. */
  datatype Files = Files(written: bool, stuck: set<RequestId>)

  class ApplyResultStore {
    const limit: nat
    var results: Table
    var disk: Table

    /** Loads the readable records; the others stay on disk unseen. */
    constructor (limit: nat, disk: Table, readable: set<RequestId>)
      ensures this.limit == limit && this.disk == disk
      ensures results == map id | id in disk && id in readable :: disk[id]
    {
      this.limit, this.disk := limit, disk;
      results := map id | id in disk && id in readable :: disk[id];
    }

    method Create(id: RequestId, kind: Kind, now: int, files: Files) returns (ok: bool)
      modifies this
      ensures ok <==> id !in old(results) && files.written
      ensures results == AfterCreate(old(results), id, kind, now, files.written)
      ensures results == if ok then old(results)[id := Record(kind, Queued, false, now, now)] else old(results)
      ensures ok ==> id in disk && disk[id] == results[id]
      ensures disk == if ok then old(disk)[id := NewRecord(kind, now)] else old(disk)
    {
      if id in results {
        return false;
      }
      var record := NewRecord(kind, now);
      results := results[id := record];
      if !files.written {
        results := results - {id};
        return false;
      }
      disk := disk[id := record];
      ok := true;
    }

    method Update(id: RequestId, status: Status, applied: bool, now: int, files: Files) returns (ok: bool)
      modifies this
      ensures ok <==> id in old(results) && files.written
      ensures results == AfterUpdate(old(results), limit, id, status, applied, now)
      ensures id !in old(results) ==> results == old(results)
      ensures id in results ==> results[id] == Record(old(results)[id].kind, status, applied, old(results)[id].createdAt, now)
      ensures forall other :: other in results && other != id ==> other in old(results) && results[other] == old(results)[other]
      ensures status in {Queued, Running} ==> results.Keys == old(results).Keys
      ensures disk.Keys <= old(disk).Keys + {id}
      ensures forall other :: other in disk && other != id ==> disk[other] == old(disk)[other]
      ensures forall other :: other in old(disk) && other !in disk ==> other !in results
      ensures forall other :: other in old(results) && other !in results && other !in files.stuck ==> other !in disk
      ensures ok && id in results ==> id in disk && disk[id] == results[id]
      ensures !ok ==> forall other :: other in disk ==> other in old(disk) && disk[other] == old(disk)[other]
    {
      if id !in results {
        return false;
      }
      results := results[id := Changed(results[id], status, applied, now)];
      if files.written {
        disk := disk[id := results[id]];
      }
      if status.Terminal() {
        Prune(files.stuck);
      }
      ok := files.written;
    }

    method Prune(stuck: set<RequestId>)
      modifies this
      ensures results == Pruned(old(results), limit)
      ensures disk == old(disk) - (Expired(old(results), limit) - stuck)
      ensures |FinishedIds(results)| <= limit
    {
      var ids := SortedNewestFirst(results);
      ExpiredIsSuffix(results, ids, limit);
      var surplus := Surplus(ids, limit);
      for i := 0 to |surplus|
        invariant results == old(results) - ToSet(surplus[..i])
        invariant disk == old(disk) - (ToSet(surplus[..i]) - stuck)
      {
        assert surplus[..i + 1] == surplus[..i] + [surplus[i]];
        results := results - {surplus[i]};
        if surplus[i] !in stuck {
          disk := disk - {surplus[i]};
        }
      }
      assert surplus[..|surplus|] == surplus;
    }

    /** Marks what a restart interrupted; `now` is the clock at each of the updates. */
    method FailInterrupted(now: RequestId -> int, files: RequestId -> Files)
      modifies this
      ensures Recovered(old(results), results)
      ensures forall id :: id in results ==> results[id].status.Terminal()
      ensures results.Keys <= old(results).Keys
      ensures forall id :: id in results ==>
                if old(results)[id].status in {Queued, Running} then
                  results[id] == old(results)[id].(status := Failed, updatedAt := results[id].updatedAt)
                else results[id] == old(results)[id]
    {
      ghost var loaded := results;
      var todo := set id | id in results.Keys && !results[id].status.Terminal();
      while todo != {}
        invariant results.Keys <= loaded.Keys
        invariant forall id :: id in todo ==> id in results && results[id] == loaded[id]
        invariant forall id :: id in todo ==> !loaded[id].status.Terminal()
        invariant forall id :: id in results && id !in todo ==>
          if loaded[id].status.Terminal() then results[id] == loaded[id]
          else results[id].status == Failed && results[id] == Changed(loaded[id], Failed, loaded[id].applied, results[id].updatedAt)
      {
        var id :| id in todo;
        ghost var changed := results[id := Changed(results[id], Failed, results[id].applied, now(id))];
        PruneMeaning(changed, limit);
        var ok := Update(id, Failed, results[id].applied, now(id), files(id));
        todo := todo - {id};
      }
    }
  }

  /** The history sorted newest first, by insertion. */
  method SortedNewestFirst(t: Table) returns (ids: seq<RequestId>)
    ensures NewestFirst(t, ids) && ToSet(ids) == FinishedIds(t)
  {
    ids := [];
    var rest := FinishedIds(t);
    while rest != {}
      invariant NewestFirst(t, ids)
      invariant rest !! ToSet(ids) && rest + ToSet(ids) == FinishedIds(t)
    {
      var id :| id in rest;
      var at := 0;
      while at < |ids| && Newer(t, ids[at], id)
        invariant 0 <= at <= |ids|
        invariant forall k :: 0 <= k < at ==> Newer(t, ids[k], id)
      {
        at := at + 1;
      }
      assert forall k :: at <= k < |ids| ==> Newer(t, id, ids[k]) by {
        assert at < |ids| ==> ids[at] in ToSet(ids);
        assert at < |ids| ==> Newer(t, id, ids[at]);
      }
      assert ToSet(ids[..at] + [id] + ids[at..]) == ToSet(ids) + {id} by {
        assert ids == ids[..at] + ids[at..];
      }
      ids := ids[..at] + [id] + ids[at..];
      rest := rest - {id};
    }
  }
}
