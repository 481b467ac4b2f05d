/**
  The LUKS sector size shared by a batch of disks, and the provisioning of the batch:
  nothing is wiped before every disk has passed the preflight.
*/
module LuksSectors {
  import opened Sequences
  import Alignment

  datatype Geometry = Geometry(logical: int, physical: int, size: int)

  // ---- The common sector size -------------------------------------------------------------

  const SECTOR_SIZES := [4096, 2048, 1024, 512]

  predicate IsPowerOfTwo(n: int)
    decreases n
  {
    n == 1 || (n > 1 && n % 2 == 0 && IsPowerOfTwo(n / 2))
  }

  /** The sanity check every disk's geometry must pass. */
  predicate ValidGeometry(g: Geometry) {
    && IsPowerOfTwo(g.logical) && IsPowerOfTwo(g.physical)
    && 512 <= g.logical <= g.physical && g.size > 0
  }

  predicate Fits(sector: int, g: Geometry) {
    && 0 < g.logical <= sector <= g.physical
    && sector % g.logical == 0 && g.physical % sector == 0 && g.size % sector == 0
  }

  predicate FitsAll(sector: int, geometries: seq<Geometry>) {
    forall i :: 0 <= i < |geometries| ==> Fits(sector, geometries[i])
  }

  predicate Candidate(sector: int, required: Option<int>) {
    sector in SECTOR_SIZES && (required.None? || required.value == sector)
  }

  /** The largest candidate that fits every disk, if any does. */
  ghost predicate IsChoice(geometries: seq<Geometry>, required: Option<int>, choice: Option<int>) {
    match choice
    case Some(c) =>
      && geometries != [] && Candidate(c, required) && FitsAll(c, geometries)
      && forall d :: Candidate(d, required) && FitsAll(d, geometries) ==> d <= c
    case None => geometries == [] || forall d :: Candidate(d, required) ==> !FitsAll(d, geometries)
  }

  method ChooseLuksSectorSize(geometries: seq<Geometry>, required: Option<int>) returns (choice: Option<int>)
    ensures IsChoice(geometries, required, choice)
  {
    if geometries == [] {
      return None;
    }
    var candidates := if required.Some? then [required.value] else SECTOR_SIZES;
    var i := 0;
    while i < |candidates|
      invariant 0 <= i <= |candidates|
      invariant forall j :: 0 <= j < i ==> !Candidate(candidates[j], required) || !FitsAll(candidates[j], geometries)
    {
      if candidates[i] in SECTOR_SIZES && FitsAll(candidates[i], geometries) {
        return Some(candidates[i]);
      }
      i := i + 1;
    }
    assert forall d :: Candidate(d, required) ==> d in candidates by {
      assert required.Some? ==> candidates[0] == required.value;
    }
    return None;
  }

  lemma ChoiceIsUnique(geometries: seq<Geometry>, required: Option<int>, a: Option<int>, b: Option<int>)
    requires IsChoice(geometries, required, a) && IsChoice(geometries, required, b)
    ensures a == b
  {
  }

  /** Of two powers of two, the smaller divides the larger. */
  lemma {:induction false} PowerDivides(a: int, b: int)
    requires IsPowerOfTwo(a) && IsPowerOfTwo(b) && a <= b
    ensures b % a == 0
    decreases a
  {
    if a > 1 {
      PowerDivides(a / 2, b / 2);
      var k := (b / 2) / (a / 2);
      assert b / 2 == (a / 2) * k;
      assert b == a * k;
      Alignment.ProductIsMultiple(a, k);
    }
  }

  ghost predicate Between(sector: int, g: Geometry) {
    0 < g.logical <= sector <= g.physical && g.size % sector == 0
  }

  /**
    For sane disks a sector size fits them all exactly when it lies between the
    largest logical and the smallest physical sector and divides every size.
  */
  lemma FitsIffBetween(sector: int, geometries: seq<Geometry>)
    requires sector in SECTOR_SIZES && forall i :: 0 <= i < |geometries| ==> ValidGeometry(geometries[i])
    ensures FitsAll(sector, geometries) <==> forall i :: 0 <= i < |geometries| ==> Between(sector, geometries[i])
  {
    SectorsArePowers(sector);
    forall i | 0 <= i < |geometries|
      ensures Fits(sector, geometries[i]) <==> Between(sector, geometries[i])
    {
      var g := geometries[i];
      if Between(sector, g) {
        PowerDivides(g.logical, sector);
        PowerDivides(sector, g.physical);
      }
    }
  }

  lemma SectorsArePowers(sector: int)
    requires sector in SECTOR_SIZES
    ensures IsPowerOfTwo(sector)
  {
    assert IsPowerOfTwo(4096) && IsPowerOfTwo(2048) && IsPowerOfTwo(1024) && IsPowerOfTwo(512);
  }

  /** Adding a disk never makes the common sector size larger, nor possible where it was not. */
  lemma AddingDiskNeverGrows(geometries: seq<Geometry>, extra: Geometry, required: Option<int>, small: Option<int>, large: Option<int>)
    requires geometries != [] && IsChoice(geometries, required, small) && IsChoice(geometries + [extra], required, large)
    ensures large.Some? ==> small.Some? && large.value <= small.value
  {
    if large.Some? {
      forall i | 0 <= i < |geometries|
        ensures Fits(large.value, geometries[i])
      {
        assert (geometries + [extra])[i] == geometries[i];
      }
      assert FitsAll(large.value, geometries);
    }
  }

  // ---- Provisioning a batch -----------------------------------------------------------------

  datatype Target = Target(device: string, mapper: string)

  /** What was done to the disks; `ok` is the command's reported outcome. */
  datatype Action =
    | KeyWritten(ok: bool)
    | Wiped(device: string, ok: bool)
    | Formatted(device: string, sector: int, ok: bool)
    | Opened(device: string, mapper: string, ok: bool)
    | Closed(mapper: string)

  /** What reading a device's geometry gives; nothing for a missing or unreadable device. */
  type Probe = string -> Option<Geometry>

  /** Distinct, present and sane devices. */
  predicate Sane(targets: seq<Target>, probe: Probe) {
    && targets != []
    && (forall i, j :: 0 <= i < j < |targets| ==>
          targets[i].device != targets[j].device && targets[i].mapper != targets[j].mapper)
    && (forall i :: 0 <= i < |targets| ==>
          probe(targets[i].device).Some? && ValidGeometry(probe(targets[i].device).value))
  }

  function Geometries(targets: seq<Target>, probe: Probe): (gs: seq<Geometry>)
    requires Sane(targets, probe)
    ensures |gs| == |targets|
  {
    seq(|targets|, i requires 0 <= i < |targets| => probe(targets[i].device).value)
  }

  /** The batch passes the preflight with this sector size. */
  ghost predicate Passes(targets: seq<Target>, probe: Probe, required: Option<int>, sector: int) {
    Sane(targets, probe) && IsChoice(Geometries(targets, probe), required, Some(sector))
  }

  /** The actions of one target that goes well. */
  function Provisioned(t: Target, sector: int): seq<Action> {
    [Wiped(t.device, true), Formatted(t.device, sector, true), Opened(t.device, t.mapper, true)]
  }

  function AllProvisioned(targets: seq<Target>, sector: int): seq<Action> {
    if targets == [] then []
    else AllProvisioned(targets[..|targets| - 1], sector) + Provisioned(targets[|targets| - 1], sector)
  }

  function Closes(targets: seq<Target>): seq<Action> {
    if targets == [] then []
    else [Closed(targets[|targets| - 1].mapper)] + Closes(targets[..|targets| - 1])
  }

  /** How far a target got whose provisioning failed; it was opened only with a wrong sector size. */
  ghost predicate BrokenOff(t: Target, sector: int, part: seq<Action>, isOpen: bool) {
    || (!isOpen && part == [Wiped(t.device, false)])
    || (!isOpen && part == [Wiped(t.device, true), Formatted(t.device, sector, false)])
    || (!isOpen && part == [Wiped(t.device, true), Formatted(t.device, sector, true), Opened(t.device, t.mapper, false)])
    || (isOpen && part == Provisioned(t, sector))
  }

  /** The targets before `k` were provisioned, `k` broke off with `part`, and what was open was closed. */
  ghost predicate GivenUpAt(targets: seq<Target>, sector: int, made: seq<Action>, k: nat, part: seq<Action>, isOpen: bool) {
    && k < |targets| && BrokenOff(targets[k], sector, part, isOpen)
    && made == AllProvisioned(targets[..k], sector) + part + Closes(if isOpen then targets[..k + 1] else targets[..k])
  }

  ghost predicate GivenUp(targets: seq<Target>, sector: int, made: seq<Action>) {
    exists k, part, isOpen :: GivenUpAt(targets, sector, made, k, part, isOpen)
  }

  function KeyOf(writeKeyfile: bool): seq<Action> {
    if writeKeyfile then [KeyWritten(true)] else []
  }

  /** Nothing was done, the key was refused, or it was written and a target broke off. */
  ghost predicate BatchFailed(targets: seq<Target>, sector: int, writeKeyfile: bool, key: seq<Action>, made: seq<Action>) {
    || (key == [] && made == [])
    || (writeKeyfile && key == [KeyWritten(false)] && made == [])
    || (key == KeyOf(writeKeyfile) && GivenUp(targets, sector, made))
  }

  class LuksStack {
    var done: seq<Action>

    /** A command with an unknown outcome. */
    method Try(succeeded: Action, failed: Action) returns (ok: bool)
      modifies this
      ensures done == old(done) + [if ok then succeeded else failed]
    {
      ok := *;
      done := done + [if ok then succeeded else failed];
    }

    method Preflight(targets: seq<Target>, probe: Probe, required: Option<int>) returns (sector: Option<int>)
      ensures sector.Some? ==> Passes(targets, probe, required, sector.value)
      ensures sector.None? ==> forall s :: !Passes(targets, probe, required, s)
    {
      if !Sane(targets, probe) {
        return None;
      }
      sector := ChooseLuksSectorSize(Geometries(targets, probe), required);
    }

    /** Wipes, formats and opens one target, and checks the sector size of its mapper. */
    method ProvisionTarget(t: Target, sector: int) returns (ok: bool, isOpen: bool, ghost part: seq<Action>)
      modifies this
      ensures done == old(done) + part
      ensures if ok then part == Provisioned(t, sector) && isOpen else BrokenOff(t, sector, part, isOpen)
    {
      part := [];
      isOpen := false;
      ok := Try(Wiped(t.device, true), Wiped(t.device, false));
      part := [Wiped(t.device, ok)];
      if ok {
        ok := Try(Formatted(t.device, sector, true), Formatted(t.device, sector, false));
        part := part + [Formatted(t.device, sector, ok)];
        if ok {
          ok := Try(Opened(t.device, t.mapper, true), Opened(t.device, t.mapper, false));
          part := part + [Opened(t.device, t.mapper, ok)];
          isOpen := ok;
          if ok {
            var actualSector: int := *;
            ok := actualSector == sector;
          }
        }
      }
    }

    /** Closes the mappers of `targets`, last opened first. */
    method CloseAll(targets: seq<Target>)
      modifies this
      ensures done == old(done) + Closes(targets)
    {
      var left := targets;
      while left != []
        invariant done + Closes(left) == old(done) + Closes(targets)
      {
        done := done + [Closed(left[|left| - 1].mapper)];
        left := left[..|left| - 1];
      }
    }

    method GiveUp(targets: seq<Target>, i: nat, isOpen: bool) returns (ghost closes: seq<Action>)
      requires i < |targets|
      modifies this
      ensures done == old(done) + closes && closes == Closes(if isOpen then targets[..i + 1] else targets[..i])
    {
      CloseAll(if isOpen then targets[..i + 1] else targets[..i]);
      closes := Closes(if isOpen then targets[..i + 1] else targets[..i]);
    }

    /** Provisions the targets in order; after a failure every mapper opened here is closed again. */
    method ProvisionTargets(targets: seq<Target>, sector: int) returns (ok: bool, mappers: seq<string>, ghost made: seq<Action>)
      modifies this
      ensures done == old(done) + made
      ensures if ok then made == AllProvisioned(targets, sector) else GivenUp(targets, sector, made)
      ensures ok ==> |mappers| == |targets| && forall i :: 0 <= i < |targets| ==> mappers[i] == targets[i].mapper
    {
      mappers, made := [], [];
      var i := 0;
      while i < |targets|
        invariant 0 <= i <= |targets| && |mappers| == i
        invariant forall j :: 0 <= j < i ==> mappers[j] == targets[j].mapper
        invariant done == old(done) + made && made == AllProvisioned(targets[..i], sector)
      {
        var fine, isOpen;
        ghost var part;
        fine, isOpen, part := ProvisionTarget(targets[i], sector);
        assert old(done) + made + part == old(done) + (made + part);
        made := made + part;
        if !fine {
          ghost var closes := GiveUp(targets, i, isOpen);
          assert old(done) + made + closes == old(done) + (made + closes);
          made := made + closes;
          assert GivenUpAt(targets, sector, made, i, part, isOpen);
          return false, [], made;
        }
        assert targets[..i + 1][..i] == targets[..i];
        mappers := mappers + [targets[i].mapper];
        i := i + 1;
      }
      assert targets[..i] == targets;
      ok := true;
    }

    /** Writes the key file, if this batch has one to write. */
    method WriteKey(writeKeyfile: bool) returns (ok: bool, ghost made: seq<Action>)
      modifies this
      ensures done == old(done) + made
      ensures if ok then made == KeyOf(writeKeyfile) else writeKeyfile && made == [KeyWritten(false)]
    {
      ok, made := true, [];
      if writeKeyfile {
        ok := Try(KeyWritten(true), KeyWritten(false));
        made := [KeyWritten(ok)];
      }
    }

    /**
      Provisions a batch. Before the whole batch has passed the preflight nothing is
      written; then comes the key, and after it the targets, each with the one chosen
      sector size.
    */
    method ProvisionLuksStack(targets: seq<Target>, probe: Probe, required: Option<int>, writeKeyfile: bool)
      returns (ok: bool, mappers: seq<string>, ghost sector: int, ghost key: seq<Action>, ghost made: seq<Action>)
      modifies this
      ensures done == old(done) + key + made
      ensures key + made != [] || ok ==> Passes(targets, probe, required, sector)
      ensures ok ==> |mappers| == |targets| && forall i :: 0 <= i < |targets| ==> mappers[i] == targets[i].mapper
      ensures ok ==> key == KeyOf(writeKeyfile) && made == AllProvisioned(targets, sector)
      ensures !ok ==> BatchFailed(targets, sector, writeKeyfile, key, made)
    {
      ok, mappers, key, made, sector := false, [], [], [], 0;
      var chosen := Preflight(targets, probe, required);
      if chosen.Some? {
        sector := chosen.value;
        ok, key := WriteKey(writeKeyfile);
        if ok {
          ok, mappers, made := ProvisionTargets(targets, chosen.value);
        }
      }
    }
  }

  // ---- Written out -------------------------------------------------------------------------------

  /** The sector size suits the disk: it lies between its sector sizes and divides its size. */
  predicate Suits(sector: int, g: Geometry) {
    0 < g.logical <= sector <= g.physical && sector % g.logical == 0 && g.physical % sector == 0 && g.size % sector == 0
  }

  /** One of the four sizes, the required one if one is, that suits every disk. */
  predicate SuitsAll(sector: int, targets: seq<Target>, probe: Probe, required: Option<int>) {
    && (sector == 4096 || sector == 2048 || sector == 1024 || sector == 512) && (required.Some? ==> required.value == sector)
    && forall i :: 0 <= i < |targets| ==> probe(targets[i].device).Some? && Suits(sector, probe(targets[i].device).value)
  }

  /**
    What passes the preflight: devices and mappers without repetition, each device there,
    with sectors of at least 512 bytes and some size; and the sector size is the largest
    of 4096, 2048, 1024 and 512 that suits every disk and is the required one, if one is.
  */
  lemma PassesMeans(targets: seq<Target>, probe: Probe, required: Option<int>, sector: int)
    requires Passes(targets, probe, required, sector)
    ensures targets != [] && forall i :: 0 <= i < |targets| ==>
              && probe(targets[i].device).Some?
              && var g := probe(targets[i].device).value;
                 512 <= g.logical <= g.physical && g.size > 0
    ensures forall i, j :: 0 <= i < j < |targets| ==> targets[i].device != targets[j].device && targets[i].mapper != targets[j].mapper
    ensures SuitsAll(sector, targets, probe, required) && forall d :: SuitsAll(d, targets, probe, required) ==> d <= sector
  {
    var gs := Geometries(targets, probe);
    forall i | 0 <= i < |targets|
      ensures probe(targets[i].device).Some? && gs[i] == probe(targets[i].device).value && Fits(sector, gs[i])
    {
    }
    assert SECTOR_SIZES[0] == 4096 && SECTOR_SIZES[1] == 2048 && SECTOR_SIZES[2] == 1024 && SECTOR_SIZES[3] == 512;
    forall d | SuitsAll(d, targets, probe, required)
      ensures d <= sector
    {
      forall i | 0 <= i < |gs|
        ensures Fits(d, gs[i])
      {
        assert Suits(d, probe(targets[i].device).value);
      }
      assert Candidate(d, required) && FitsAll(d, gs);
    }
  }

  /** Each target was wiped, then formatted with this sector size, then opened, one right after the other. */
  lemma {:induction false} AllAreMadeReady(targets: seq<Target>, sector: int)
    ensures |AllProvisioned(targets, sector)| == 3 * |targets|
    ensures forall i :: 0 <= i < |targets| ==>
              var made := AllProvisioned(targets, sector);
              && made[3 * i] == Wiped(targets[i].device, true) && made[3 * i + 1] == Formatted(targets[i].device, sector, true)
              && made[3 * i + 2] == Opened(targets[i].device, targets[i].mapper, true)
  {
    if targets != [] {
      AllAreMadeReady(targets[..|targets| - 1], sector);
    }
  }

  /** What was opened and not closed again, after these actions. */
  function StillOpen(made: seq<Action>): set<string> {
    if made == [] then {}
    else
      var before, last := StillOpen(made[..|made| - 1]), made[|made| - 1];
      if last.Opened? && last.ok then before + {last.mapper} else if last.Closed? then before - {last.mapper} else before
  }

  function MappersOf(targets: seq<Target>): set<string> {
    set t | t in targets :: t.mapper
  }

  lemma {:induction false} OpenAfterAll(made: seq<Action>, targets: seq<Target>, sector: int)
    ensures StillOpen(made + AllProvisioned(targets, sector)) == StillOpen(made) + MappersOf(targets)
  {
    if targets == [] {
      assert made + [] == made;
    } else {
      var last := |targets| - 1;
      var before := made + AllProvisioned(targets[..last], sector);
      OpenAfterAll(made, targets[..last], sector);
      OpenAfterOne(before, targets[last], sector);
      assert made + AllProvisioned(targets, sector) == before + Provisioned(targets[last], sector);
      assert targets == targets[..last] + [targets[last]];
    }
  }

  lemma OpenAfterOne(made: seq<Action>, t: Target, sector: int)
    ensures StillOpen(made + Provisioned(t, sector)) == StillOpen(made) + {t.mapper}
  {
    OpenAfter(made, Wiped(t.device, true));
    OpenAfter(made + [Wiped(t.device, true)], Formatted(t.device, sector, true));
    OpenAfter(made + [Wiped(t.device, true)] + [Formatted(t.device, sector, true)], Opened(t.device, t.mapper, true));
    assert made + Provisioned(t, sector)
        == made + [Wiped(t.device, true)] + [Formatted(t.device, sector, true)] + [Opened(t.device, t.mapper, true)];
  }

  lemma OpenAfter(made: seq<Action>, a: Action)
    ensures StillOpen(made + [a])
         == if a.Opened? && a.ok then StillOpen(made) + {a.mapper} else if a.Closed? then StillOpen(made) - {a.mapper} else StillOpen(made)
  {
    assert (made + [a])[..|made|] == made;
  }

  lemma {:induction false} OpenAfterCloses(made: seq<Action>, targets: seq<Target>)
    ensures StillOpen(made + Closes(targets)) == StillOpen(made) - MappersOf(targets)
    decreases |targets|
  {
    if targets == [] {
      assert made + [] == made;
    } else {
      var last := |targets| - 1;
      OpenAfter(made, Closed(targets[last].mapper));
      OpenAfterCloses(made + [Closed(targets[last].mapper)], targets[..last]);
      assert made + Closes(targets) == (made + [Closed(targets[last].mapper)]) + Closes(targets[..last]);
      assert targets == targets[..last] + [targets[last]];
    }
  }

  /** A batch that breaks off leaves nothing open that was not open before it. */
  lemma GivenUpLeavesNothingOpen(done: seq<Action>, targets: seq<Target>, sector: int, made: seq<Action>)
    requires GivenUp(targets, sector, made)
    ensures StillOpen(done + made) <= StillOpen(done)
  {
    var k: nat, part, isOpen :| GivenUpAt(targets, sector, made, k, part, isOpen);
    assert targets[..k + 1] == targets[..k] + [targets[k]];
    GivenUpAtLeavesNothingOpen(done, targets[..k], targets[k], sector, part, isOpen, made);
  }

  lemma GivenUpAtLeavesNothingOpen(done: seq<Action>, ready: seq<Target>, t: Target, sector: int, part: seq<Action>, isOpen: bool,
                                   made: seq<Action>)
    requires BrokenOff(t, sector, part, isOpen)
    requires made == AllProvisioned(ready, sector) + part + Closes(if isOpen then ready + [t] else ready)
    ensures StillOpen(done + made) <= StillOpen(done)
  {
    var first, closes := AllProvisioned(ready, sector), Closes(if isOpen then ready + [t] else ready);
    OpenAfterAll(done, ready, sector);
    OpenAfterPart(done + first, t, sector, part, isOpen);
    OpenAfterCloses((done + first) + part, if isOpen then ready + [t] else ready);
    Regrouped(done, first, part, closes);
  }

  lemma Regrouped(a: seq<Action>, b: seq<Action>, c: seq<Action>, d: seq<Action>)
    ensures a + (b + c + d) == ((a + b) + c) + d
  {
  }

  lemma OpenAfterPart(made: seq<Action>, t: Target, sector: int, part: seq<Action>, isOpen: bool)
    requires BrokenOff(t, sector, part, isOpen)
    ensures StillOpen(made + part) == StillOpen(made) + if isOpen then {t.mapper} else {}
  {
    if isOpen {
      OpenAfterOne(made, t, sector);
    } else {
      OpenAfter(made, part[0]);
      if |part| > 1 {
        OpenAfter(made + [part[0]], part[1]);
      }
      if |part| > 2 {
        OpenAfter(made + [part[0]] + [part[1]], part[2]);
        assert made + part == made + [part[0]] + [part[1]] + [part[2]];
      } else if |part| > 1 {
        assert made + part == made + [part[0]] + [part[1]];
      } else {
        assert made + part == made + [part[0]];
      }
    }
  }

  /** Targets are provisioned in their order, and closed in the opposite one. */
  lemma {:induction false} OrderOfActions(targets: seq<Target>, sector: int, i: nat)
    requires i < |targets|
    ensures |AllProvisioned(targets, sector)| == 3 * |targets| && |Closes(targets)| == |targets|
    ensures AllProvisioned(targets, sector)[3 * i..3 * i + 3]
            == [Wiped(targets[i].device, true), Formatted(targets[i].device, sector, true), Opened(targets[i].device, targets[i].mapper, true)]
    ensures Closes(targets)[|targets| - 1 - i] == Closed(targets[i].mapper)
  {
    var last := |targets| - 1;
    var fewer := targets[..last];
    if last == 0 {
      assert fewer == [] && AllProvisioned(fewer, sector) == [];
    } else {
      OrderOfActions(fewer, sector, if i < last then i else 0);
      if i < last {
        assert AllProvisioned(targets, sector)[3 * i..3 * i + 3] == AllProvisioned(fewer, sector)[3 * i..3 * i + 3];
      }
    }
  }
}
