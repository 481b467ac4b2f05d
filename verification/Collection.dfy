/**
  Retention in the artifact store: which manifests one collection keeps, and what it
  leaves in the store. Entries are listed in the order the directory was scanned.
*/
module Collection {
  import Sequences

  type Digest = nat
  type Identity = nat

  const RETAINED_VERSIONS: nat := 3

  /** `place` is the position in the scan; `used` the lease stamp, or else the admission time. */
  datatype Entry = Entry(digest: Digest, identity: Identity, used: nat, place: nat)

  /** A scan lists every digest once, in order. */
  ghost predicate IsScan(entries: seq<Entry>) {
    && (forall i, j :: 0 <= i < j < |entries| ==> entries[i].place < entries[j].place)
    && (forall i, j :: 0 <= i < j < |entries| ==> entries[i].digest != entries[j].digest)
  }

  /** The stable order of retention: later use first, then the order of the scan. */
  predicate Before(a: Entry, b: Entry) {
    a.used > b.used || (a.used == b.used && a.place < b.place)
  }

  /** The entries of the same identity that come before `e`. */
  ghost function Rivals(entries: seq<Entry>, e: Entry): set<Entry> {
    set f | f in entries && f.identity == e.identity && Before(f, e)
  }

  ghost predicate Recent(entries: seq<Entry>, e: Entry) {
    |Rivals(entries, e)| < RETAINED_VERSIONS
  }

  /** What one collection keeps. */
  ghost predicate Keeps(entries: seq<Entry>, protected: set<Digest>, e: Entry) {
    e.digest in protected || Recent(entries, e)
  }

  // ---- The stable sort ---------------------------------------------------------------------

  function Insert(e: Entry, sorted: seq<Entry>): seq<Entry> {
    if sorted == [] || e.used >= sorted[0].used then [e] + sorted else [sorted[0]] + Insert(e, sorted[1..])
  }

  /** Sorts by last use, latest first, keeping the order of equals. */
  function SortByUse(values: seq<Entry>): seq<Entry> {
    if values == [] then [] else Insert(values[0], SortByUse(values[1..]))
  }

  ghost predicate InOrder(s: seq<Entry>) {
    forall i, j :: 0 <= i < j < |s| ==> Before(s[i], s[j])
  }

  lemma {:induction false} InsertKeeps(e: Entry, sorted: seq<Entry>)
    ensures |Insert(e, sorted)| == |sorted| + 1
    ensures forall f :: f in Insert(e, sorted) <==> f == e || f in sorted
  {
    if sorted != [] && e.used < sorted[0].used {
      InsertKeeps(e, sorted[1..]);
      assert sorted == [sorted[0]] + sorted[1..];
    }
  }

  lemma {:induction false} InsertOrders(e: Entry, sorted: seq<Entry>)
    requires InOrder(sorted) && forall f :: f in sorted ==> e.place < f.place
    ensures InOrder(Insert(e, sorted))
  {
    if sorted == [] || e.used >= sorted[0].used {
      forall j | 0 <= j < |sorted|
        ensures Before(e, sorted[j])
      {
        assert j > 0 ==> Before(sorted[0], sorted[j]);
      }
    } else {
      var rest := sorted[1..];
      forall i, j | 0 <= i < j < |rest|
        ensures Before(rest[i], rest[j])
      {
        assert Before(sorted[i + 1], sorted[j + 1]);
      }
      InsertOrders(e, rest);
      InsertKeeps(e, rest);
      var s := Insert(e, rest);
      forall j | 0 <= j < |s|
        ensures Before(sorted[0], s[j])
      {
        assert s[j] in s;
        if s[j] != e {
          var k :| 0 <= k < |rest| && rest[k] == s[j];
          assert Before(sorted[0], sorted[k + 1]);
        }
      }
    }
  }

  /** The sort lists the same entries in the order of retention. */
  lemma {:induction false} SortOrders(values: seq<Entry>)
    requires IsScan(values)
    ensures InOrder(SortByUse(values)) && |SortByUse(values)| == |values|
    ensures forall f :: f in SortByUse(values) <==> f in values
  {
    if values != [] {
      var rest := values[1..];
      SortOrders(rest);
      assert values == [values[0]] + rest;
      InsertKeeps(values[0], SortByUse(rest));
      forall f | f in SortByUse(rest)
        ensures values[0].place < f.place
      {
        var k :| 0 <= k < |rest| && rest[k] == f;
        assert values[k + 1] == f;
      }
      InsertOrders(values[0], SortByUse(rest));
    }
  }

  /** In an ordered list of one identity, the position of an entry is the number of its rivals. */
  lemma PositionIsRank(s: seq<Entry>, k: nat)
    requires InOrder(s) && k < |s| && forall f :: f in s ==> f.identity == s[k].identity
    ensures |Rivals(s, s[k])| == k
  {
    var first := s[..k];
    assert Rivals(s, s[k]) == set f | f in first by {
      forall f
        ensures f in Rivals(s, s[k]) <==> f in first
      {
        if f in Rivals(s, s[k]) {
          var i :| 0 <= i < |s| && s[i] == f;
          assert i > k ==> Before(s[k], s[i]);
        }
        if f in first {
          var i :| 0 <= i < |first| && first[i] == f;
          assert Before(s[i], s[k]);
        }
      }
    }
    DistinctCount(first);
  }

  lemma {:induction false} DistinctCount(s: seq<Entry>)
    requires InOrder(s)
    ensures |set f | f in s| == |s|
  {
    if s != [] {
      var last := |s| - 1;
      DistinctCount(s[..last]);
      assert (set f | f in s) == (set f | f in s[..last]) + {s[last]};
      forall i | 0 <= i < last
        ensures s[..last][i] != s[last]
      {
        assert Before(s[i], s[last]);
      }
    }
  }

  function OfIdentity(entries: seq<Entry>, identity: Identity): seq<Entry> {
    if entries == [] then []
    else
      var before, last := OfIdentity(entries[..|entries| - 1], identity), entries[|entries| - 1];
      if last.identity == identity then before + [last] else before
  }

  lemma ScanAppend(s: seq<Entry>, e: Entry)
    requires IsScan(s) && forall f :: f in s ==> f.place < e.place && f.digest != e.digest
    ensures IsScan(s + [e])
  {
    forall i | 0 <= i < |s|
      ensures s[i].place < e.place && s[i].digest != e.digest
    {
      assert s[i] in s;
    }
  }

  lemma ScanSplit(entries: seq<Entry>)
    requires IsScan(entries) && entries != []
    ensures var last := |entries| - 1;
            && IsScan(entries[..last])
            && forall f :: f in entries[..last] ==> f.place < entries[last].place && f.digest != entries[last].digest
  {
  }

  lemma {:induction false} OfIdentityHolds(entries: seq<Entry>, identity: Identity)
    ensures forall f :: f in OfIdentity(entries, identity) <==> f in entries && f.identity == identity
  {
    if entries != [] {
      var last := |entries| - 1;
      OfIdentityHolds(entries[..last], identity);
      assert entries == entries[..last] + [entries[last]];
    }
  }

  lemma {:induction false} OfIdentityMeans(entries: seq<Entry>, identity: Identity)
    requires IsScan(entries)
    ensures IsScan(OfIdentity(entries, identity))
    ensures forall f :: f in OfIdentity(entries, identity) <==> f in entries && f.identity == identity
  {
    OfIdentityHolds(entries, identity);
    if entries != [] {
      var last := |entries| - 1;
      ScanSplit(entries);
      OfIdentityMeans(entries[..last], identity);
      if entries[last].identity == identity {
        ScanAppend(OfIdentity(entries[..last], identity), entries[last]);
      }
    }
  }

  /** The first three of an identity's sorted entries are exactly its recent ones. */
  lemma TopThreeAreRecent(entries: seq<Entry>, identity: Identity, e: Entry)
    requires IsScan(entries)
    ensures var sorted := SortByUse(OfIdentity(entries, identity));
            e in sorted[..if |sorted| < RETAINED_VERSIONS then |sorted| else RETAINED_VERSIONS]
            <==> e in entries && e.identity == identity && Recent(entries, e)
  {
    var group := OfIdentity(entries, identity);
    var sorted := SortByUse(group);
    var top := sorted[..if |sorted| < RETAINED_VERSIONS then |sorted| else RETAINED_VERSIONS];
    OfIdentityMeans(entries, identity);
    SortOrders(group);
    assert forall f :: f in top ==> f in sorted;
    if e in entries && e.identity == identity {
      assert e in sorted;
      var k :| 0 <= k < |sorted| && sorted[k] == e;
      PositionIsRank(sorted, k);
      assert Rivals(sorted, e) == Rivals(entries, e);
      if k < |top| {
        assert top[k] == e;
      } else {
        forall i | 0 <= i < |top|
          ensures top[i] != e
        {
          assert Before(sorted[i], sorted[k]);
        }
      }
    }
  }

  // ---- One collection --------------------------------------------------------------------------

  datatype Manifest = Manifest(identity: Identity, layers: seq<Digest>, admittedAt: nat)

  /** The stamp retention goes by: the lease, or the admission time of a manifest never leased. */
  function LastUsed(m: Manifest, leases: map<Digest, nat>, d: Digest): nat {
    if d in leases then leases[d] else m.admittedAt
  }

  ghost predicate Lists(scan: seq<Digest>, manifests: map<Digest, Manifest>) {
    && (forall i, j :: 0 <= i < j < |scan| ==> scan[i] != scan[j])
    && (forall d :: d in scan <==> d in manifests)
  }

  /** What a directory scan in this order finds. */
  function Entries(scan: seq<Digest>, manifests: map<Digest, Manifest>, leases: map<Digest, nat>): (entries: seq<Entry>)
    requires forall i :: 0 <= i < |scan| ==> scan[i] in manifests
    ensures |entries| == |scan|
    ensures forall i :: 0 <= i < |scan| ==>
              entries[i] == Entry(scan[i], manifests[scan[i]].identity, LastUsed(manifests[scan[i]], leases, scan[i]), i)
  {
    seq(|scan|, i requires 0 <= i < |scan| =>
      Entry(scan[i], manifests[scan[i]].identity, LastUsed(manifests[scan[i]], leases, scan[i]), i))
  }

  ghost function RecentDigests(entries: seq<Entry>): set<Digest> {
    set e | e in entries && Recent(entries, e) :: e.digest
  }

  /** The digests one collection keeps. */
  ghost function Retained(entries: seq<Entry>, protected: set<Digest>): set<Digest> {
    protected + RecentDigests(entries)
  }

  function Referenced(manifests: map<Digest, Manifest>): set<Digest> {
    set d, l | d in manifests && l in manifests[d].layers :: l
  }

  function DigestsOf(entries: seq<Entry>): set<Digest> {
    set e | e in entries :: e.digest
  }

  /** What is kept for these identities. */
  ghost function RetainedOf(entries: seq<Entry>, protected: set<Digest>, identities: set<Identity>): set<Digest> {
    protected + set e | e in entries && e.identity in identities && Recent(entries, e) :: e.digest
  }

  lemma RetainedOn(entries: seq<Entry>, protected: set<Digest>, seen: set<Identity>, id: Identity, top: seq<Entry>)
    requires forall e :: e in top <==> e in entries && e.identity == id && Recent(entries, e)
    ensures RetainedOf(entries, protected, seen) + DigestsOf(top) == RetainedOf(entries, protected, seen + {id})
  {
  }

  class ArtifactStore {
    var manifests: map<Digest, Manifest>
    var leases: map<Digest, nat>
    var blobs: set<Digest>
    /** Every unmount and every file removal succeeds. */
    var reliable: bool

    method ScanManifests(scan: seq<Digest>) returns (entries: seq<Entry>)
      requires Lists(scan, manifests)
      ensures entries == Entries(scan, manifests, leases)
      ensures forall e :: e in entries ==>
                e.digest in manifests && e.used == if e.digest in leases then leases[e.digest] else manifests[e.digest].admittedAt
    {
      entries := [];
      for i := 0 to |scan|
        invariant |entries| == i
        invariant forall j :: 0 <= j < i ==> entries[j] == Entries(scan, manifests, leases)[j]
      {
        var d := scan[i];
        entries := entries + [Entry(d, manifests[d].identity, LastUsed(manifests[d], leases, d), i)];
      }
    }

    method GroupByIdentity(entries: seq<Entry>) returns (identities: map<Identity, seq<Entry>>)
      ensures forall id :: id in identities ==> identities[id] == OfIdentity(entries, id)
      ensures forall e :: e in entries ==> e.identity in identities
    {
      identities := map[];
      for i := 0 to |entries|
        invariant forall id :: id in identities ==> identities[id] == OfIdentity(entries[..i], id)
        invariant forall id :: id !in identities ==> OfIdentity(entries[..i], id) == []
        invariant forall j :: 0 <= j < i ==> entries[j].identity in identities
      {
        var e := entries[i];
        assert entries[..i + 1][..i] == entries[..i];
        var group := if e.identity in identities then identities[e.identity] else [];
        identities := identities[e.identity := group + [e]];
      }
      assert entries[..|entries|] == entries;
    }

    method ChooseRetained(entries: seq<Entry>, protected: set<Digest>) returns (retained: set<Digest>)
      requires IsScan(entries)
      ensures retained == Retained(entries, protected)
    {
      var identities := GroupByIdentity(entries);
      retained := protected;
      var left := identities.Keys;
      ghost var seen: set<Identity> := {};
      while left != {}
        invariant left + seen == identities.Keys && left !! seen
        invariant retained == RetainedOf(entries, protected, seen)
        decreases |left|
      {
        var id :| id in left;
        var values := SortByUse(identities[id]);
        var top := values[..if |values| < RETAINED_VERSIONS then |values| else RETAINED_VERSIONS];
        forall e: Entry
          ensures e in top <==> e in entries && e.identity == id && Recent(entries, e)
        {
          TopThreeAreRecent(entries, id, e);
        }
        RetainedOn(entries, protected, seen, id, top);
        retained := retained + DigestsOf(top);
        left, seen := left - {id}, seen + {id};
      }
    }

    /** Removes what is not retained; stops at the first artifact that cannot be unmounted. */
    method RemoveManifests(entries: seq<Entry>, retained: set<Digest>) returns (done: bool, removed: seq<Digest>)
      requires forall e :: e in entries ==> e.digest in manifests
      requires forall i, j :: 0 <= i < j < |entries| ==> entries[i].digest != entries[j].digest
      modifies this`manifests, this`leases
      ensures reliable ==> done
      ensures exists k :: 0 <= k <= |entries| && (done ==> k == |entries|)
                          && var gone := DigestsOf(entries[..k]) - retained;
                             manifests == old(manifests) - gone && leases == old(leases) - gone
                             && forall d :: d in removed <==> d in gone
    {
      removed := [];
      done := true;
      ghost var k := 0;
      assert DigestsOf(entries[..0]) - retained == {};
      assert manifests == old(manifests) - {} && leases == old(leases) - {};
      for i := 0 to |entries|
        invariant k == i && done
        invariant var gone := DigestsOf(entries[..k]) - retained;
                  manifests == old(manifests) - gone && leases == old(leases) - gone
                  && forall d :: d in removed <==> d in gone
      {
        var d := entries[i].digest;
        assert DigestsOf(entries[..i + 1]) == DigestsOf(entries[..i]) + {d} by {
          assert entries[..i + 1] == entries[..i] + [entries[i]];
        }
        if d !in retained {
          var unmounted := *;
          if !unmounted && !reliable {
            done := false;
            return;
          }
          manifests := manifests - {d};
          leases := leases - {d};
          removed := removed + [d];
        }
        k := i + 1;
      }
      assert entries[..|entries|] == entries;
    }

    /** Removes unreferenced blobs; a blob that cannot be removed is left for the next collection. */
    method RemoveBlobs(referenced: set<Digest>)
      modifies this`blobs
      ensures old(blobs) * referenced <= blobs <= old(blobs)
      ensures reliable ==> blobs == old(blobs) * referenced
    {
      var left := blobs - referenced;
      while left != {}
        invariant left <= old(blobs) - referenced && old(blobs) * referenced + left <= blobs <= old(blobs)
        invariant reliable ==> blobs == old(blobs) * referenced + left
        decreases |left|
      {
        var b :| b in left;
        var removed := *;
        if removed || reliable {
          blobs := blobs - {b};
        }
        left := left - {b};
      }
    }

    /**
      One collection. A completed one keeps exactly the retained manifests, and every
      blob they reference; when every removal succeeds, no other blob.
    */
    method Gc(scan: seq<Digest>, protected: set<Digest>) returns (done: bool, removed: seq<Digest>)
      requires Lists(scan, manifests)
      modifies this`manifests, this`leases, this`blobs
      ensures reliable ==> done
      ensures !done ==> blobs == old(blobs)
      ensures var kept := Retained(Entries(scan, old(manifests), old(leases)), protected);
              && (forall d :: d in manifests ==> d in old(manifests) && manifests[d] == old(manifests)[d])
              && (forall d :: d in old(manifests) && d in kept ==> d in manifests)
              && (forall d :: d in removed <==> d in old(manifests) && d !in manifests)
              && (done ==> manifests == old(manifests) - (old(manifests).Keys - kept)
                           && leases == old(leases) - (old(manifests).Keys - kept))
      ensures done ==> old(blobs) * Referenced(manifests) <= blobs <= old(blobs)
      ensures done && reliable ==> blobs == old(blobs) * Referenced(manifests)
      ensures done ==> forall d, b :: d in manifests && b in manifests[d].layers && b in old(blobs) ==> b in blobs
      ensures done && reliable ==> forall b :: b in blobs ==> exists d :: d in manifests && b in manifests[d].layers
    {
      var entries := ScanManifests(scan);
      var retained := ChooseRetained(entries, protected);
      ghost var was := manifests;
      done, removed := RemoveManifests(entries, retained);
      assert DigestsOf(entries) == was.Keys by {
        ScanDigests(scan, was, old(leases));
      }
      if !done {
        return;
      }
      assert entries[..|entries|] == entries;
      assert was.Keys - Retained(entries, protected) == DigestsOf(entries) - retained;
      RemoveBlobs(Referenced(manifests));
    }
  }

  lemma ScanDigests(scan: seq<Digest>, manifests: map<Digest, Manifest>, leases: map<Digest, nat>)
    requires Lists(scan, manifests)
    ensures DigestsOf(Entries(scan, manifests, leases)) == manifests.Keys
    ensures IsScan(Entries(scan, manifests, leases))
  {
    var entries := Entries(scan, manifests, leases);
    forall d | d in manifests
      ensures d in DigestsOf(entries)
    {
      var i :| 0 <= i < |scan| && scan[i] == d;
      assert entries[i] in entries;
    }
  }

  // ---- What retention means ----------------------------------------------------------------------

  /** Another manifest of the identity, used at least as recently. */
  predicate AtLeastAsRecent(f: Entry, e: Entry) {
    f.digest != e.digest && f.identity == e.identity && f.used >= e.used
  }

  lemma ThreeOf(s: set<Entry>) returns (a: Entry, b: Entry, c: Entry)
    requires |s| >= 3
    ensures {a, b, c} <= s && a != b && b != c && a != c
  {
    a :| a in s;
    var rest := s - {a};
    assert |rest| == |s| - 1;
    b :| b in rest;
    var last := rest - {b};
    assert |last| == |rest| - 1;
    c :| c in last;
  }

  /**
    A collection removes a manifest only if it is unprotected and three others of its
    identity are used at least as recently.
  */
  lemma RemovedIsOutranked(entries: seq<Entry>, protected: set<Digest>, e: Entry) returns (a: Entry, b: Entry, c: Entry)
    requires IsScan(entries) && e in entries && e.digest !in Retained(entries, protected)
    ensures e.digest !in protected
    ensures {a, b, c} <= (set f | f in entries && AtLeastAsRecent(f, e)) && a != b && b != c && a != c
    ensures forall f :: f in {a, b, c} ==> f in entries && f.digest != e.digest && f.identity == e.identity && f.used >= e.used
  {
    assert !Recent(entries, e);
    a, b, c := ThreeOf(Rivals(entries, e));
    assert forall f :: f in Rivals(entries, e) ==> Before(f, e);
  }

  lemma DigestNamesEntry(entries: seq<Entry>, a: Entry, b: Entry)
    requires IsScan(entries) && a in entries && b in entries && a.digest == b.digest
    ensures a == b
  {
    var i :| 0 <= i < |entries| && entries[i] == a;
    var j :| 0 <= j < |entries| && entries[j] == b;
  }

  ghost function NearDigests(entries: seq<Entry>, e: Entry): set<Digest> {
    set f | f in entries && AtLeastAsRecent(f, e) :: f.digest
  }

  /** One of the three most recent of its identity always stays. */
  lemma MostRecentStay(entries: seq<Entry>, protected: set<Digest>, e: Entry)
    requires IsScan(entries) && e in entries
    requires |set f | f in entries && f.digest != e.digest && f.identity == e.identity && f.used >= e.used :: f.digest| < 3
    ensures e.digest in Retained(entries, protected)
  {
    assert NearDigests(entries, e) == set f | f in entries && f.digest != e.digest && f.identity == e.identity && f.used >= e.used :: f.digest;
    RivalsAreNear(entries, e);
    assert Recent(entries, e);
  }

  lemma RivalsAreNear(entries: seq<Entry>, e: Entry)
    requires IsScan(entries) && e in entries
    ensures |Rivals(entries, e)| <= |NearDigests(entries, e)|
  {
    var rivals := Rivals(entries, e);
    forall f | f in rivals
      ensures f.digest in NearDigests(entries, e)
    {
      if f.digest == e.digest {
        DigestNamesEntry(entries, f, e);
      }
    }
    CountByDigest(entries, rivals);
    Sequences.SubsetSize(set f | f in rivals :: f.digest, NearDigests(entries, e));
  }

  /** Entries of a scan are as many as their digests. */
  lemma {:induction false} CountByDigest(entries: seq<Entry>, some: set<Entry>)
    requires IsScan(entries) && forall f :: f in some ==> f in entries
    ensures |set f | f in some :: f.digest| == |some|
  {
    if some != {} {
      var e :| e in some;
      var rest := some - {e};
      CountByDigest(entries, rest);
      forall f | f in rest
        ensures f.digest != e.digest
      {
        if f.digest == e.digest {
          DigestNamesEntry(entries, f, e);
        }
      }
      assert (set f | f in some :: f.digest) == (set f | f in rest :: f.digest) + {e.digest};
    }
  }

  // ---- A second collection -----------------------------------------------------------------------

  /** The same manifest, perhaps at another place of the scan. */
  ghost predicate Same(e: Entry, f: Entry) {
    e.digest == f.digest && e.identity == f.identity && e.used == f.used
  }

  ghost predicate Has(entries: seq<Entry>, e: Entry) {
    exists f :: f in entries && Same(e, f)
  }

  /** What a later scan finds when nothing but the collection happened in between. */
  ghost predicate ScansSurvivors(first: seq<Entry>, second: seq<Entry>, protected: set<Digest>) {
    && IsScan(second)
    && (forall e :: e in second ==> exists f :: f in first && Same(e, f) && Keeps(first, protected, f))
    && (forall f :: f in first && Keeps(first, protected, f) ==> Has(second, f))
  }

  lemma SurvivorWasKept(first: seq<Entry>, second: seq<Entry>, protected: set<Digest>, e: Entry) returns (f: Entry)
    requires ScansSurvivors(first, second, protected) && e in second
    ensures f in first && Same(e, f) && Keeps(first, protected, f) && Has(first, e)
  {
    f :| f in first && Same(e, f) && Keeps(first, protected, f);
  }

  ghost predicate RemovesNothing(entries: seq<Entry>, protected: set<Digest>) {
    forall e :: e in entries ==> Keeps(entries, protected, e)
  }

  /** No manifest depends on how ties of the last use are broken. */
  ghost predicate Settled(entries: seq<Entry>, protected: set<Digest>) {
    forall e :: e in entries ==> e.digest in protected || |NearDigests(entries, e)| < RETAINED_VERSIONS
  }

  /** A scan that is settled loses nothing to a collection. */
  lemma SettledLosesNothing(entries: seq<Entry>, protected: set<Digest>)
    requires IsScan(entries) && Settled(entries, protected)
    ensures RemovesNothing(entries, protected)
  {
    forall e | e in entries && e.digest !in protected
      ensures Recent(entries, e)
    {
      RivalsAreNear(entries, e);
    }
  }

  /** The same manifests, scanned in another order. */
  ghost predicate Reordered(a: seq<Entry>, b: seq<Entry>) {
    (forall e :: e in a ==> Has(b, e)) && (forall f :: f in b ==> Has(a, f))
  }

  lemma NearTransfers(a: seq<Entry>, b: seq<Entry>, e: Entry, f: Entry)
    requires (forall g :: g in b ==> Has(a, g)) && Same(f, e)
    ensures NearDigests(b, f) <= NearDigests(a, e)
  {
    forall g | g in b && AtLeastAsRecent(g, f)
      ensures g.digest in NearDigests(a, e)
    {
      assert Has(a, g);
      var h :| h in a && Same(g, h);
      assert AtLeastAsRecent(h, e);
    }
  }

  lemma SettledInAnyOrder(a: seq<Entry>, b: seq<Entry>, protected: set<Digest>)
    requires Reordered(a, b) && Settled(a, protected)
    ensures Settled(b, protected)
  {
    forall f | f in b && f.digest !in protected
      ensures |NearDigests(b, f)| < RETAINED_VERSIONS
    {
      assert Has(a, f);
      var e :| e in a && Same(f, e);
      NearTransfers(a, b, e, f);
      Sequences.SubsetSize(NearDigests(b, f), NearDigests(a, e));
    }
  }

  /** The entry scanned last has every entry near it for a rival. */
  lemma LastLoses(entries: seq<Entry>, e: Entry)
    requires IsScan(entries) && entries != [] && e == entries[|entries| - 1]
    ensures |NearDigests(entries, e)| <= |Rivals(entries, e)|
  {
    var rivals := Rivals(entries, e);
    forall g | g in entries && AtLeastAsRecent(g, e)
      ensures g in rivals
    {
      var i :| 0 <= i < |entries| && entries[i] == g;
    }
    CountByDigest(entries, rivals);
    Sequences.SubsetSize(NearDigests(entries, e), set f | f in rivals :: f.digest);
  }

  /** Where an entry comes from when the entry at `k` of `n` is moved last. */
  function MovedFrom(n: nat, k: nat, i: nat): (at: nat)
    requires k < n && i < n
    ensures at < n
  {
    if i < k then i else if i + 1 < n then i + 1 else k
  }

  /** The scan with one entry moved to the end. */
  function MovedLast(entries: seq<Entry>, k: nat): (moved: seq<Entry>)
    requires k < |entries|
    ensures |moved| == |entries|
    ensures forall i :: 0 <= i < |moved| ==> moved[i] == entries[MovedFrom(|entries|, k, i)].(place := i)
  {
    seq(|entries|, i requires 0 <= i < |entries| => entries[MovedFrom(|entries|, k, i)].(place := i))
  }

  /** An unprotected manifest that three others tie or beat can be made to lose. */
  lemma UnsettledCanLose(entries: seq<Entry>, protected: set<Digest>, k: nat)
    requires IsScan(entries) && k < |entries|
    requires entries[k].digest !in protected && |NearDigests(entries, entries[k])| >= RETAINED_VERSIONS
    ensures IsScan(MovedLast(entries, k)) && Reordered(entries, MovedLast(entries, k))
    ensures !RemovesNothing(MovedLast(entries, k), protected)
  {
    var moved := MovedLast(entries, k);
    var loser := moved[|moved| - 1];
    MovedIsScan(entries, k);
    MovedIsReordered(entries, k);
    NearTransfers(moved, entries, loser, entries[k]);
    Sequences.SubsetSize(NearDigests(entries, entries[k]), NearDigests(moved, loser));
    LastLoses(moved, loser);
    assert loser in moved && !Keeps(moved, protected, loser);
  }

  lemma MovedIsScan(entries: seq<Entry>, k: nat)
    requires IsScan(entries) && k < |entries|
    ensures IsScan(MovedLast(entries, k))
  {
    var moved, n := MovedLast(entries, k), |entries|;
    forall i, j | 0 <= i < j < n
      ensures moved[i].digest != moved[j].digest
    {
      DistinctAt(entries, MovedFrom(n, k, i), MovedFrom(n, k, j));
    }
  }

  lemma DistinctAt(entries: seq<Entry>, a: nat, b: nat)
    requires IsScan(entries) && a < |entries| && b < |entries| && a != b
    ensures entries[a].digest != entries[b].digest
  {
  }

  lemma MovedIsReordered(entries: seq<Entry>, k: nat)
    requires k < |entries|
    ensures Reordered(entries, MovedLast(entries, k))
  {
    var moved := MovedLast(entries, k);
    forall e | e in entries
      ensures Has(moved, e)
    {
      var i :| 0 <= i < |entries| && entries[i] == e;
      var at := if i < k then i else if i == k then |entries| - 1 else i - 1;
      assert MovedFrom(|entries|, k, at) == i && moved[at] in moved && Same(e, moved[at]);
    }
    forall f | f in moved
      ensures Has(entries, f)
    {
      var i :| 0 <= i < |moved| && moved[i] == f;
      assert entries[MovedFrom(|entries|, k, i)] in entries && Same(f, entries[MovedFrom(|entries|, k, i)]);
    }
  }

  /**
    A further collection removes nothing, in whatever order it scans, exactly when no
    unprotected manifest is tied or beaten by three others of its identity.
  */
  lemma LosesNothingInAnyOrderIff(entries: seq<Entry>, protected: set<Digest>)
    requires IsScan(entries)
    ensures Settled(entries, protected) <==>
            forall other :: IsScan(other) && Reordered(entries, other) ==> RemovesNothing(other, protected)
  {
    if Settled(entries, protected) {
      forall other | IsScan(other) && Reordered(entries, other)
        ensures RemovesNothing(other, protected)
      {
        SettledInAnyOrder(entries, other, protected);
        SettledLosesNothing(other, protected);
      }
    } else {
      var e :| e in entries && e.digest !in protected && |NearDigests(entries, e)| >= RETAINED_VERSIONS;
      var k :| 0 <= k < |entries| && entries[k] == e;
      UnsettledCanLose(entries, protected, k);
    }
  }

  /** Enough of the first scan's rivals stand behind the second scan's. */
  lemma FewStay(first: seq<Entry>, f: Entry, near: set<Digest>)
    requires IsScan(first) && Recent(first, f)
    requires forall d :: d in near ==> exists g :: g in Rivals(first, f) && g.digest == d
    ensures |near| < RETAINED_VERSIONS
  {
    CountByDigest(first, Rivals(first, f));
    Sequences.SubsetSize(near, set g | g in Rivals(first, f) :: g.digest);
  }

  /** No two manifests of one identity were last used at the same time. */
  ghost predicate NoTies(entries: seq<Entry>) {
    forall f, g :: f in entries && g in entries && f.identity == g.identity && f.used == g.used ==> f == g
  }

  /** With stamps that never tie, what one collection leaves is settled: a second removes nothing. */
  lemma SecondRemovesNothing(first: seq<Entry>, second: seq<Entry>, protected: set<Digest>)
    requires IsScan(first) && ScansSurvivors(first, second, protected)
    requires NoTies(first)
    ensures Settled(second, protected) && RemovesNothing(second, protected)
  {
    forall e | e in second && e.digest !in protected
      ensures |NearDigests(second, e)| < RETAINED_VERSIONS
    {
      var f :| f in first && Same(e, f) && Keeps(first, protected, f);
      forall x | x in second && AtLeastAsRecent(x, e)
        ensures exists g :: g in Rivals(first, f) && g.digest == x.digest
      {
        var g :| g in first && Same(x, g);
        assert Before(g, f);
      }
      FewStay(first, f, NearDigests(second, e));
    }
    SettledLosesNothing(second, protected);
  }

  /** The later scan lists some of the earlier entries, in their order; `places` says where they stood. */
  ghost predicate Rescan(first: seq<Entry>, second: seq<Entry>, places: seq<nat>) {
    && |places| == |second|
    && (forall i {:trigger StoodAt(first, second, places, i)} :: 0 <= i < |second| ==> StoodAt(first, second, places, i))
    && (forall i, j :: 0 <= i < j < |places| ==> places[i] < places[j])
  }

  ghost predicate StoodAt(first: seq<Entry>, second: seq<Entry>, places: seq<nat>, i: nat) {
    i < |second| && i < |places| && places[i] < |first| && Same(second[i], first[places[i]])
  }

  /** The second scan meets the survivors in the order of the first. */
  ghost predicate SameOrder(first: seq<Entry>, second: seq<Entry>) {
    exists places :: Rescan(first, second, places)
  }

  lemma PlaceMapped(first: seq<Entry>, second: seq<Entry>, places: seq<nat>, e: Entry, f: Entry) returns (i: nat)
    requires IsScan(first) && Rescan(first, second, places) && e in second && f in first && Same(e, f)
    ensures i < |places| == |second| && places[i] < |first| && second[i] == e && first[places[i]] == f
  {
    i :| 0 <= i < |second| && second[i] == e;
    assert StoodAt(first, second, places, i);
    DigestNamesEntry(first, f, first[places[i]]);
  }

  lemma PlacesInOrder(first: seq<Entry>, second: seq<Entry>, e: Entry, x: Entry, f: Entry, g: Entry)
    requires IsScan(first) && IsScan(second) && SameOrder(first, second)
    requires e in second && x in second && f in first && g in first && Same(e, f) && Same(x, g)
    ensures e.place < x.place <==> f.place < g.place
  {
    var places :| Rescan(first, second, places);
    var i := PlaceMapped(first, second, places, e, f);
    var j := PlaceMapped(first, second, places, x, g);
  }

  /** Scanned in the same order as before, what one collection leaves loses nothing to a second, ties or not. */
  lemma SecondInSameOrderRemovesNothing(first: seq<Entry>, second: seq<Entry>, protected: set<Digest>)
    requires IsScan(first) && ScansSurvivors(first, second, protected) && SameOrder(first, second)
    ensures RemovesNothing(second, protected)
  {
    forall x | x in second
      ensures Has(first, x)
    {
      var f := SurvivorWasKept(first, second, protected, x);
    }
    forall e | e in second && e.digest !in protected
      ensures Recent(second, e)
    {
      var f := SurvivorWasKept(first, second, protected, e);
      StaysRecent(first, second, e, f);
    }
  }

  lemma StaysRecent(first: seq<Entry>, second: seq<Entry>, e: Entry, f: Entry)
    requires IsScan(first) && IsScan(second) && SameOrder(first, second)
    requires e in second && f in first && Same(e, f) && Recent(first, f)
    requires forall x :: x in second ==> Has(first, x)
    ensures Recent(second, e)
  {
    RivalsBehind(first, second, e, f);
    FewStay(first, f, set x | x in Rivals(second, e) :: x.digest);
    CountRivals(second, e);
  }

  lemma CountRivals(entries: seq<Entry>, e: Entry)
    requires IsScan(entries)
    ensures |set x | x in Rivals(entries, e) :: x.digest| == |Rivals(entries, e)|
  {
    CountByDigest(entries, Rivals(entries, e));
  }

  lemma RivalsBehind(first: seq<Entry>, second: seq<Entry>, e: Entry, f: Entry)
    requires IsScan(first) && IsScan(second) && SameOrder(first, second) && e in second && f in first && Same(e, f)
    requires forall x :: x in second ==> Has(first, x)
    ensures forall x :: x in Rivals(second, e) ==> exists g :: g in Rivals(first, f) && g.digest == x.digest
  {
    forall x | x in Rivals(second, e)
      ensures exists g :: g in Rivals(first, f) && g.digest == x.digest
    {
      assert Has(first, x);
      var g :| g in first && Same(x, g);
      PlacesInOrder(first, second, x, e, g, f);
      assert Before(g, f);
    }
  }

  /** The names of a scan that are still there, in the same order. */
  function StillThere(scan: seq<Digest>, manifests: map<Digest, Manifest>): seq<Digest> {
    if scan == [] then []
    else
      var before, d := StillThere(scan[..|scan| - 1], manifests), scan[|scan| - 1];
      if d in manifests then before + [d] else before
  }

  /** Where each remaining name stood in the earlier scan. */
  lemma {:induction false} StillInOrder(scan: seq<Digest>, manifests: map<Digest, Manifest>) returns (places: seq<nat>)
    ensures |places| == |StillThere(scan, manifests)|
    ensures forall i :: 0 <= i < |places| ==> places[i] < |scan| && scan[places[i]] == StillThere(scan, manifests)[i]
    ensures forall i :: 0 <= i < |places| ==> StillThere(scan, manifests)[i] in manifests
    ensures forall i, j :: 0 <= i < j < |places| ==> places[i] < places[j]
    ensures forall d :: d in scan && d in manifests ==> d in StillThere(scan, manifests)
  {
    if scan == [] {
      places := [];
    } else {
      var last := |scan| - 1;
      places := StillInOrder(scan[..last], manifests);
      assert scan == scan[..last] + [scan[last]];
      if scan[last] in manifests {
        places := places + [last];
      }
    }
  }

  lemma KeptByDigest(entries: seq<Entry>, protected: set<Digest>, e: Entry)
    requires IsScan(entries) && e in entries
    ensures Keeps(entries, protected, e) <==> e.digest in Retained(entries, protected)
  {
    if e.digest in RecentDigests(entries) {
      var f :| f in entries && Recent(entries, f) && f.digest == e.digest;
      DigestNamesEntry(entries, e, f);
    }
  }

  /** What a completed collection leaves behind of what it found. */
  ghost predicate Leaves(scan: seq<Digest>, was: map<Digest, Manifest>, leases: map<Digest, nat>,
                         now: map<Digest, Manifest>, leasesNow: map<Digest, nat>, protected: set<Digest>)
    requires Lists(scan, was)
  {
    var gone := was.Keys - Retained(Entries(scan, was, leases), protected);
    now == was - gone && leasesNow == leases - gone
  }

  /** What is left is as it was, and counts as used when it did. */
  ghost predicate Unchanged(was: map<Digest, Manifest>, leases: map<Digest, nat>, now: map<Digest, Manifest>, leasesNow: map<Digest, nat>) {
    forall d :: d in now ==> d in was && now[d] == was[d] && LastUsed(now[d], leasesNow, d) == LastUsed(was[d], leases, d)
  }

  lemma LeavesUnchanged(scan: seq<Digest>, was: map<Digest, Manifest>, leases: map<Digest, nat>,
                        now: map<Digest, Manifest>, leasesNow: map<Digest, nat>, protected: set<Digest>)
    requires Lists(scan, was) && Leaves(scan, was, leases, now, leasesNow, protected)
    ensures Unchanged(was, leases, now, leasesNow)
    ensures now.Keys == was.Keys * Retained(Entries(scan, was, leases), protected)
  {
  }

  ghost predicate InPlaces(scan: seq<Digest>, again: seq<Digest>, places: seq<nat>) {
    && |places| == |again|
    && (forall i :: 0 <= i < |again| ==> places[i] < |scan| && scan[places[i]] == again[i])
    && (forall i, j :: 0 <= i < j < |places| ==> places[i] < places[j])
  }

  /** `again` lists these manifests in the order of `scan`. */
  ghost predicate ListsInOrder(scan: seq<Digest>, again: seq<Digest>, manifests: map<Digest, Manifest>) {
    Lists(again, manifests) && exists places :: InPlaces(scan, again, places)
  }

  lemma StillListed(scan: seq<Digest>, was: map<Digest, Manifest>, now: map<Digest, Manifest>)
    requires Lists(scan, was) && now.Keys <= was.Keys
    ensures ListsInOrder(scan, StillThere(scan, now), now)
  {
    var places := StillInOrder(scan, now);
    var again := StillThere(scan, now);
    forall i, j | 0 <= i < j < |again|
      ensures again[i] != again[j]
    {
      assert scan[places[i]] != scan[places[j]];
    }
    assert InPlaces(scan, again, places);
  }

  lemma RescanOf(scan: seq<Digest>, again: seq<Digest>, was: map<Digest, Manifest>, leases: map<Digest, nat>,
                 now: map<Digest, Manifest>, leasesNow: map<Digest, nat>, first: seq<Entry>, second: seq<Entry>)
    requires Lists(scan, was) && ListsInOrder(scan, again, now) && Unchanged(was, leases, now, leasesNow)
    requires first == Entries(scan, was, leases) && second == Entries(again, now, leasesNow)
    ensures SameOrder(first, second)
  {
    var places :| InPlaces(scan, again, places);
    forall i | 0 <= i < |again|
      ensures StoodAt(first, second, places, i)
    {
      assert again[i] in now;
    }
    assert Rescan(first, second, places);
  }

  lemma StoredAt(scan: seq<Digest>, manifests: map<Digest, Manifest>, leases: map<Digest, nat>, d: Digest) returns (e: Entry)
    requires Lists(scan, manifests) && d in manifests
    ensures e in Entries(scan, manifests, leases) && e.digest == d
    ensures e.identity == manifests[d].identity && e.used == LastUsed(manifests[d], leases, d)
  {
    var i :| 0 <= i < |scan| && scan[i] == d;
    e := Entries(scan, manifests, leases)[i];
  }

  /** Whatever its order, a scan of what a completed collection leaves finds exactly the entries that it kept. */
  lemma SurvivorsScanned(scan: seq<Digest>, again: seq<Digest>, was: map<Digest, Manifest>, leases: map<Digest, nat>,
                         now: map<Digest, Manifest>, leasesNow: map<Digest, nat>, protected: set<Digest>)
    requires Lists(scan, was) && Leaves(scan, was, leases, now, leasesNow, protected) && Lists(again, now)
    ensures IsScan(Entries(scan, was, leases))
    ensures ScansSurvivors(Entries(scan, was, leases), Entries(again, now, leasesNow), protected)
  {
    var first, second := Entries(scan, was, leases), Entries(again, now, leasesNow);
    ScanDigests(scan, was, leases);
    ScanDigests(again, now, leasesNow);
    LeavesUnchanged(scan, was, leases, now, leasesNow, protected);
    forall e | e in second
      ensures exists f :: f in first && Same(e, f) && Keeps(first, protected, f)
    {
      ScannedAs(again, now, leasesNow, e);
      var f := StoredAt(scan, was, leases, e.digest);
      KeptByDigest(first, protected, f);
    }
    forall f | f in first && Keeps(first, protected, f)
      ensures Has(second, f)
    {
      ScannedAs(scan, was, leases, f);
      KeptByDigest(first, protected, f);
      var e := StoredAt(again, now, leasesNow, f.digest);
      assert Same(f, e);
    }
  }

  /** What a completed collection leaves, scanned again in the same order, loses nothing. */
  lemma SurvivorsRescanned(scan: seq<Digest>, again: seq<Digest>, was: map<Digest, Manifest>, leases: map<Digest, nat>,
                           now: map<Digest, Manifest>, leasesNow: map<Digest, nat>, protected: set<Digest>)
    requires Lists(scan, was) && Leaves(scan, was, leases, now, leasesNow, protected) && ListsInOrder(scan, again, now)
    ensures RemovesNothing(Entries(again, now, leasesNow), protected)
  {
    LeavesUnchanged(scan, was, leases, now, leasesNow, protected);
    RescanOf(scan, again, was, leases, now, leasesNow, Entries(scan, was, leases), Entries(again, now, leasesNow));
    SurvivorsScanned(scan, again, was, leases, now, leasesNow, protected);
    SecondInSameOrderRemovesNothing(Entries(scan, was, leases), Entries(again, now, leasesNow), protected);
  }

  /** Nothing unretained is found by a scan that loses nothing. */
  lemma NothingToRemove(scan: seq<Digest>, manifests: map<Digest, Manifest>, leases: map<Digest, nat>, protected: set<Digest>)
    requires Lists(scan, manifests) && RemovesNothing(Entries(scan, manifests, leases), protected)
    ensures manifests.Keys - Retained(Entries(scan, manifests, leases), protected) == {}
  {
    var entries := Entries(scan, manifests, leases);
    ScanDigests(scan, manifests, leases);
    forall d | d in manifests
      ensures d in Retained(entries, protected)
    {
      assert d in DigestsOf(entries);
      var e :| e in entries && e.digest == d;
      KeptByDigest(entries, protected, e);
    }
  }

  /**
    Two collections in a row, the second of which lists the names in the order `order`:
    once the first has completed, the second removes nothing if the order is the same or
    no last uses tie.
  */
  method CollectTwice(store: ArtifactStore, scan: seq<Digest>, order: seq<Digest>, protected: set<Digest>)
    returns (done: bool, again: seq<Digest>)
    requires Lists(scan, store.manifests) && Lists(order, store.manifests)
    modifies store
    ensures done && (order == scan || NoTies(old(Entries(scan, store.manifests, store.leases)))) ==> forall d :: d !in again
    ensures store.reliable ==> done
  {
    ghost var was, leases := store.manifests, store.leases;
    var removed;
    done, removed := store.Gc(scan, protected);
    again := [];
    if done {
      assert Leaves(scan, was, leases, store.manifests, store.leases, protected);
      StillListed(order, was, store.manifests);
      var rescan := StillThere(order, store.manifests);
      if order == scan {
        SurvivorsRescanned(scan, rescan, was, leases, store.manifests, store.leases, protected);
      } else if NoTies(Entries(scan, was, leases)) {
        SurvivorsScanned(scan, rescan, was, leases, store.manifests, store.leases, protected);
        SecondRemovesNothing(Entries(scan, was, leases), Entries(rescan, store.manifests, store.leases), protected);
      }
      again := CollectAgain(store, rescan, protected);
    }
  }

  method CollectAgain(store: ArtifactStore, scan: seq<Digest>, protected: set<Digest>) returns (removed: seq<Digest>)
    requires Lists(scan, store.manifests)
    modifies store
    ensures RemovesNothing(Entries(scan, old(store.manifests), old(store.leases)), protected) ==> forall d :: d !in removed
    ensures store.reliable == old(store.reliable)
  {
    if RemovesNothing(Entries(scan, store.manifests, store.leases), protected) {
      NothingToRemove(scan, store.manifests, store.leases, protected);
    }
    var done;
    done, removed := store.Gc(scan, protected);
  }

  // ---- A tie that costs a survivor ---------------------------------------------------------------

  /** Four manifests of one identity, none ever leased, admitted at the same time. */
  function Tied(): (m: map<Digest, Manifest>)
    ensures m.Keys == {0, 1, 2, 3} && forall d :: d in m ==> m[d] == Manifest(0, [], 5)
  {
    map[0 := Manifest(0, [], 5), 1 := Manifest(0, [], 5), 2 := Manifest(0, [], 5), 3 := Manifest(0, [], 5)]
  }

  ghost predicate AllTied(entries: seq<Entry>, scan: seq<Digest>) {
    |entries| == 4 && |scan| == 4 && forall k :: 0 <= k < 4 ==> entries[k] == Entry(scan[k], 0, 5, k)
  }

  lemma TiedScan(scan: seq<Digest>)
    requires |scan| == 4 && Lists(scan, Tied())
    ensures AllTied(Entries(scan, Tied(), map[]), scan)
  {
  }

  lemma TiedRanks(entries: seq<Entry>, scan: seq<Digest>, k: nat)
    requires AllTied(entries, scan) && IsScan(entries) && k < 4
    ensures |Rivals(entries, entries[k])| == k
  {
    PositionIsRank(entries, k);
  }

  lemma TiedKeeps(entries: seq<Entry>, scan: seq<Digest>, k: nat)
    requires AllTied(entries, scan) && IsScan(entries) && k < 4
    ensures scan[k] in Retained(entries, {3}) <==> k < 3 || scan[k] == 3
  {
    TiedRanks(entries, scan, k);
    KeptByDigest(entries, {3}, entries[k]);
  }

  lemma TiedKept(scan: seq<Digest>, k: nat)
    requires |scan| == 4 && Lists(scan, Tied()) && k < 4
    ensures scan[k] in Retained(Entries(scan, Tied(), map[]), {3}) <==> k < 3 || scan[k] == 3
  {
    TiedScan(scan);
    ScanDigests(scan, Tied(), map[]);
    TiedKeeps(Entries(scan, Tied(), map[]), scan, k);
  }

  lemma TiedLists()
    ensures Lists([0, 1, 2, 3], Tied()) && Lists([3, 0, 1, 2], Tied())
  {
  }

  lemma AllFourStay(scan: seq<Digest>)
    requires scan == [0, 1, 2, 3] && Lists(scan, Tied())
    ensures Leaves(scan, Tied(), map[], Tied(), map[], {3})
  {
    TiedKept(scan, 0);
    TiedKept(scan, 1);
    TiedKept(scan, 2);
    TiedKept(scan, 3);
    NothingGone(Retained(Entries(scan, Tied(), map[]), {3}));
  }

  lemma NothingGone(retained: set<Digest>)
    requires {0, 1, 2, 3} <= retained
    ensures Tied() == Tied() - (Tied().Keys - retained) && Tied().Keys - retained == {}
  {
    assert Tied().Keys - retained == {};
  }

  /**
    A completed collection leaves all four, one of them because it is protected; and a
    second one that lists them in another order removes one that is not.
   */
  lemma TiedSurvivorMayBeLost() returns (scan: seq<Digest>, again: seq<Digest>)
    ensures Lists(scan, Tied()) && Leaves(scan, Tied(), map[], Tied(), map[], {3})
    ensures Lists(again, Tied()) && 2 !in Retained(Entries(again, Tied(), map[]), {3})
  {
    scan, again := [0, 1, 2, 3], [3, 0, 1, 2];
    TiedLists();
    AllFourStay(scan);
    assert again[3] == 2;
    TiedKept(again, 3);
  }

  // ---- Stamps ------------------------------------------------------------------------------------

  const NANOSECONDS: nat := 1_000_000_000

  /** Leases are stamped in nanoseconds, admissions in seconds, of times since `earliest`. */
  ghost predicate Stamped(manifests: map<Digest, Manifest>, leases: map<Digest, nat>, earliest: nat) {
    && (forall d :: d in leases ==> NANOSECONDS * earliest <= leases[d])
    && (forall d :: d in manifests ==> manifests[d].admittedAt < NANOSECONDS * earliest)
  }

  function LeasedOf(manifests: map<Digest, Manifest>, leases: map<Digest, nat>, identity: Identity): set<Digest> {
    set d | d in manifests && d in leases && manifests[d].identity == identity
  }

  lemma ScannedAs(scan: seq<Digest>, manifests: map<Digest, Manifest>, leases: map<Digest, nat>, f: Entry)
    requires Lists(scan, manifests) && f in Entries(scan, manifests, leases)
    ensures f.digest in manifests && f.identity == manifests[f.digest].identity && f.used == LastUsed(manifests[f.digest], leases, f.digest)
  {
  }

  function LeasedEntries(entries: seq<Entry>, leases: map<Digest, nat>, identity: Identity): set<Entry> {
    set f | f in entries && f.digest in leases && f.identity == identity
  }

  lemma CountLeased(scan: seq<Digest>, manifests: map<Digest, Manifest>, leases: map<Digest, nat>, identity: Identity)
    requires Lists(scan, manifests)
    ensures |LeasedOf(manifests, leases, identity)| <= |LeasedEntries(Entries(scan, manifests, leases), leases, identity)|
  {
    var entries := Entries(scan, manifests, leases);
    var leased := LeasedEntries(entries, leases, identity);
    ScanDigests(scan, manifests, leases);
    CountByDigest(entries, leased);
    forall d | d in LeasedOf(manifests, leases, identity)
      ensures d in set f | f in leased :: f.digest
    {
      var i :| 0 <= i < |scan| && scan[i] == d;
      assert entries[i] in leased;
    }
    Sequences.SubsetSize(LeasedOf(manifests, leases, identity), set f | f in leased :: f.digest);
  }

  /** A manifest never leased yields to every leased one of its identity. */
  lemma LeasedComeFirst(scan: seq<Digest>, manifests: map<Digest, Manifest>, leases: map<Digest, nat>, earliest: nat, e: Entry)
    requires Lists(scan, manifests) && Stamped(manifests, leases, earliest)
    requires e in Entries(scan, manifests, leases) && e.digest !in leases
    requires |LeasedOf(manifests, leases, e.identity)| >= RETAINED_VERSIONS
    ensures !Recent(Entries(scan, manifests, leases), e)
  {
    var entries := Entries(scan, manifests, leases);
    var leased := LeasedEntries(entries, leases, e.identity);
    CountLeased(scan, manifests, leases, e.identity);
    ScannedAs(scan, manifests, leases, e);
    forall f | f in leased
      ensures f in Rivals(entries, e)
    {
      ScannedAs(scan, manifests, leases, f);
    }
    Sequences.SubsetSize(leased, Rivals(entries, e));
  }
}
