/**
 * The scene navigation store: which level is shown (store, zone, fixture), the selected zone
 * and fixture, the front-view ("VMD") mode with its index into the zone's fixtures, and the
 * list of placed fixtures with append, remove and merge-update.
 */
module SceneStore {
  import opened Wrappers
  import opened StoreTypes

  /** A fixture as the scene store holds it: flat dimensions and the zone it belongs to. */
  datatype FixtureInstance = FixtureInstance(
    id: string, name: string, zoneId: string, position: Point3D, rotation: real,
    width: real, height: real, depth: real, shelfCount: real)

  datatype ZoneBounds = ZoneBounds(minX: real, minZ: real, maxX: real, maxZ: real)

  datatype Zone = Zone(id: string, name: string, color: string, bounds: ZoneBounds)

  datatype NavigationLevel = StoreLevel | ZoneLevel | FixtureLevel

  datatype Direction = Prev | Next

  /** `Partial<FixtureInstance>`: a field that is `None` is not part of the update. */
  datatype FixturePatch = FixturePatch(
    id: Option<string>, name: Option<string>, zoneId: Option<string>, position: Option<Point3D>,
    rotation: Option<real>, width: Option<real>, height: Option<real>, depth: Option<real>,
    shelfCount: Option<real>)

  datatype Neighbours = Neighbours(prev: Option<FixtureInstance>, next: Option<FixtureInstance>)

  // ---------------------------------------------------------------------------
  // Pure helpers over the fixture list

  function InZone(zoneId: string): FixtureInstance -> bool {
    (f: FixtureInstance) => f.zoneId == zoneId
  }

  /** `getFixturesByZone`: the fixtures of one zone, in list order. */
  function FixturesByZone(fixtures: seq<FixtureInstance>, zoneId: string): (r: seq<FixtureInstance>)
    ensures |r| <= |fixtures|
    ensures forall i :: 0 <= i < |r| ==> r[i].zoneId == zoneId && r[i] in fixtures
    ensures forall i :: 0 <= i < |fixtures| && fixtures[i].zoneId == zoneId ==> fixtures[i] in r
  {
    Filter(fixtures, InZone(zoneId))
  }

  /** Filtering by zone distributes over concatenation, so relative order is kept. */
  lemma FixturesByZoneConcat(a: seq<FixtureInstance>, b: seq<FixtureInstance>, zoneId: string)
    ensures FixturesByZone(a + b, zoneId) == FixturesByZone(a, zoneId) + FixturesByZone(b, zoneId)
  {
    FilterConcat(a, b, InZone(zoneId));
  }

  /** A list whose fixtures all belong to the zone is returned whole. */
  lemma FixturesByZoneAllInZone(fixtures: seq<FixtureInstance>, zoneId: string)
    requires forall i :: 0 <= i < |fixtures| ==> fixtures[i].zoneId == zoneId
    ensures FixturesByZone(fixtures, zoneId) == fixtures
  {
    FilterAll(fixtures, InZone(zoneId));
  }

  /** `getZoneFixtures` and the filter every VMD operation starts from. */
  function ZoneFixtures(fixtures: seq<FixtureInstance>, selectedZoneId: Option<string>): (r: seq<FixtureInstance>)
    ensures !Truthy(selectedZoneId) ==> r == fixtures
    ensures Truthy(selectedZoneId) ==> forall i :: 0 <= i < |r| ==> r[i].zoneId == selectedZoneId.value
  {
    if Truthy(selectedZoneId) then FixturesByZone(fixtures, selectedZoneId.value) else fixtures
  }

  /** `Array.prototype.findIndex` on fixture ids: the first match, or -1. */
  function FindIndex(xs: seq<FixtureInstance>, id: string): (r: int)
    ensures -1 <= r < |xs|
    ensures r == -1 <==> forall i :: 0 <= i < |xs| ==> xs[i].id != id
    ensures r >= 0 ==> xs[r].id == id && forall i :: 0 <= i < r ==> xs[i].id != id
    decreases |xs|
  {
    if xs == [] then -1
    else if xs[0].id == id then 0
    else
      var k := FindIndex(xs[1..], id);
      assert forall i :: 1 <= i < |xs| ==> xs[i] == xs[1..][i - 1];
      if k == -1 then -1 else k + 1
  }

  /** `getAdjacentFixtures`, by position in the (already zone-filtered) list. */
  function AdjacentFixtures(zoneFixtures: seq<FixtureInstance>, fixtureId: string): (r: Neighbours)
    ensures r.prev.Some? <==> FindIndex(zoneFixtures, fixtureId) > 0
    ensures r.next.Some? <==> FindIndex(zoneFixtures, fixtureId) < |zoneFixtures| - 1
  {
    var index := FindIndex(zoneFixtures, fixtureId);
    Neighbours(
      if index > 0 then Some(zoneFixtures[index - 1]) else None,
      if index < |zoneFixtures| - 1 then Some(zoneFixtures[index + 1]) else None)
  }

  /** A fixture at index k has the entries at k-1 and k+1 as neighbours, where they exist. */
  lemma AdjacentOfKnown(zoneFixtures: seq<FixtureInstance>, k: int)
    requires 0 <= k < |zoneFixtures|
    requires forall i :: 0 <= i < k ==> zoneFixtures[i].id != zoneFixtures[k].id
    ensures var r := AdjacentFixtures(zoneFixtures, zoneFixtures[k].id);
      && r.prev == (if k == 0 then None else Some(zoneFixtures[k - 1]))
      && r.next == (if k == |zoneFixtures| - 1 then None else Some(zoneFixtures[k + 1]))
  {
    var index := FindIndex(zoneFixtures, zoneFixtures[k].id);
    assert index == k;
  }

  /** An unknown id (index -1) has no previous fixture, and the first fixture as next. */
  lemma AdjacentOfUnknown(zoneFixtures: seq<FixtureInstance>, fixtureId: string)
    requires forall i :: 0 <= i < |zoneFixtures| ==> zoneFixtures[i].id != fixtureId
    ensures AdjacentFixtures(zoneFixtures, fixtureId).prev == None
    ensures AdjacentFixtures(zoneFixtures, fixtureId).next
      == (if zoneFixtures == [] then None else Some(zoneFixtures[0]))
  {
  }

  /** The fixture with every field the patch carries overwritten, and the others kept. */
  function Merge(f: FixtureInstance, patch: FixturePatch): FixtureInstance {
    FixtureInstance(
      patch.id.GetOr(f.id), patch.name.GetOr(f.name), patch.zoneId.GetOr(f.zoneId),
      patch.position.GetOr(f.position), patch.rotation.GetOr(f.rotation),
      patch.width.GetOr(f.width), patch.height.GetOr(f.height), patch.depth.GetOr(f.depth),
      patch.shelfCount.GetOr(f.shelfCount))
  }

  const EmptyPatch := FixturePatch(None, None, None, None, None, None, None, None, None)

  /** An empty update changes nothing; applying the same update twice is applying it once. */
  lemma MergeLaws(f: FixtureInstance, patch: FixturePatch)
    ensures Merge(f, EmptyPatch) == f
    ensures Merge(Merge(f, patch), patch) == Merge(f, patch)
    ensures patch.position.Some? ==> Merge(f, patch).position == patch.position.value
  {
  }

  /** `updateFixture`'s map: merge into entries with that id, keep every other entry. */
  function UpdateFixtures(fixtures: seq<FixtureInstance>, id: string, patch: FixturePatch): (r: seq<FixtureInstance>)
    ensures |r| == |fixtures|
    ensures forall i :: 0 <= i < |r| ==>
      r[i] == (if fixtures[i].id == id then Merge(fixtures[i], patch) else fixtures[i])
    decreases |fixtures|
  {
    if fixtures == [] then []
    else
      var head := if fixtures[0].id == id then Merge(fixtures[0], patch) else fixtures[0];
      var tail := UpdateFixtures(fixtures[1..], id, patch);
      assert forall i :: 1 <= i < |fixtures| ==> fixtures[i] == fixtures[1..][i - 1];
      [head] + tail
  }

  /** Updating an id that is not in the list leaves the list as it was. */
  lemma UpdateUnknownIsIdentity(fixtures: seq<FixtureInstance>, id: string, patch: FixturePatch)
    requires forall i :: 0 <= i < |fixtures| ==> fixtures[i].id != id
    ensures UpdateFixtures(fixtures, id, patch) == fixtures
  {
  }

  function HasOtherId(id: string): FixtureInstance -> bool {
    (f: FixtureInstance) => f.id != id
  }

  /** `removeFixture`'s filter: drop every entry with the id, keep the others. */
  function RemoveFixtures(fixtures: seq<FixtureInstance>, id: string): (r: seq<FixtureInstance>)
    ensures forall i :: 0 <= i < |r| ==> r[i].id != id && r[i] in fixtures
    ensures forall i :: 0 <= i < |fixtures| && fixtures[i].id != id ==> fixtures[i] in r
  {
    Filter(fixtures, HasOtherId(id))
  }

  /** Removal works piecewise, so the remaining entries keep their order. */
  lemma RemoveFixturesConcat(a: seq<FixtureInstance>, b: seq<FixtureInstance>, id: string)
    ensures RemoveFixtures(a + b, id) == RemoveFixtures(a, id) + RemoveFixtures(b, id)
  {
    FilterConcat(a, b, HasOtherId(id));
  }

  /** Removing an id that is absent keeps the list; adding and then removing a fresh id undoes the add. */
  lemma RemoveAfterAdd(fixtures: seq<FixtureInstance>, f: FixtureInstance)
    requires forall i :: 0 <= i < |fixtures| ==> fixtures[i].id != f.id
    ensures RemoveFixtures(fixtures, f.id) == fixtures
    ensures RemoveFixtures(fixtures + [f], f.id) == fixtures
  {
    FilterAll(fixtures, HasOtherId(f.id));
    FilterConcat(fixtures, [f], HasOtherId(f.id));
    assert [f][1..] == [];
  }

  /** The index `navigateVMD` moves to, before the "does that fixture exist" check. */
  function VmdStep(index: int, count: int, direction: Direction): int {
    if direction == Prev && index > 0 then index - 1
    else if direction == Next && index < count - 1 then index + 1
    else index
  }

  /**
   * Navigation stays inside the list and moves by exactly one: 'prev' at the first fixture and
   * 'next' at the last one stay put, every other step is a neighbour.
   */
  lemma VmdStepInRange(index: int, count: int, direction: Direction)
    requires 0 <= index < count
    ensures 0 <= VmdStep(index, count, direction) < count
    ensures VmdStep(index, count, direction) == index
      <==> (direction == Prev && index == 0) || (direction == Next && index == count - 1)
    ensures VmdStep(index, count, direction) != index ==>
      VmdStep(index, count, direction) == (if direction == Prev then index - 1 else index + 1)
  {
  }

  // ---------------------------------------------------------------------------
  // The store

  class SceneState {
    var navigationLevel: NavigationLevel
    var selectedZoneId: Option<string>
    var zones: seq<Zone>
    var selectedFixtureId: Option<string>
    var isVMDMode: bool
    var vmdFixtureIndex: int
    var fixtures: seq<FixtureInstance>

    /** The VMD index is never negative. */
    ghost predicate Valid()
      reads this
    {
      vmdFixtureIndex >= 0
    }

    constructor()
      ensures Valid()
      ensures navigationLevel == StoreLevel && selectedZoneId == None && zones == []
      ensures selectedFixtureId == None && !isVMDMode && vmdFixtureIndex == 0 && fixtures == []
    {
      navigationLevel := StoreLevel;
      selectedZoneId := None;
      zones := [];
      selectedFixtureId := None;
      isVMDMode := false;
      vmdFixtureIndex := 0;
      fixtures := [];
    }

    method SetNavigationLevel(level: NavigationLevel)
      requires Valid()
      modifies this
      ensures Valid()
      ensures navigationLevel == level
      ensures selectedZoneId == old(selectedZoneId) && zones == old(zones) && selectedFixtureId == old(selectedFixtureId)
      ensures isVMDMode == old(isVMDMode) && vmdFixtureIndex == old(vmdFixtureIndex) && fixtures == old(fixtures)
    {
      navigationLevel := level;
    }

    method SetSelectedZone(id: Option<string>)
      requires Valid()
      modifies this
      ensures Valid()
      ensures selectedZoneId == id
      ensures navigationLevel == old(navigationLevel) && zones == old(zones) && selectedFixtureId == old(selectedFixtureId)
      ensures isVMDMode == old(isVMDMode) && vmdFixtureIndex == old(vmdFixtureIndex) && fixtures == old(fixtures)
    {
      selectedZoneId := id;
    }

    /** Show one zone: select it, clear the fixture selection and leave VMD. */
    method EnterZoneView(zoneId: string)
      requires Valid()
      modifies this
      ensures Valid()
      ensures navigationLevel == ZoneLevel && selectedZoneId == Some(zoneId)
      ensures selectedFixtureId == None && !isVMDMode
      ensures zones == old(zones) && vmdFixtureIndex == old(vmdFixtureIndex) && fixtures == old(fixtures)
    {
      navigationLevel := ZoneLevel;
      selectedZoneId := Some(zoneId);
      selectedFixtureId := None;
      isVMDMode := false;
    }

    /** Back to the whole store: clear zone, fixture selection and VMD. */
    method ExitZoneView()
      requires Valid()
      modifies this
      ensures Valid()
      ensures navigationLevel == StoreLevel && selectedZoneId == None
      ensures selectedFixtureId == None && !isVMDMode
      ensures zones == old(zones) && vmdFixtureIndex == old(vmdFixtureIndex) && fixtures == old(fixtures)
    {
      navigationLevel := StoreLevel;
      selectedZoneId := None;
      selectedFixtureId := None;
      isVMDMode := false;
    }

    method SetZones(newZones: seq<Zone>)
      requires Valid()
      modifies this
      ensures Valid()
      ensures zones == newZones
      ensures navigationLevel == old(navigationLevel) && selectedZoneId == old(selectedZoneId) && selectedFixtureId == old(selectedFixtureId)
      ensures isVMDMode == old(isVMDMode) && vmdFixtureIndex == old(vmdFixtureIndex) && fixtures == old(fixtures)
    {
      zones := newZones;
    }

    method SetSelectedFixture(id: Option<string>)
      requires Valid()
      modifies this
      ensures Valid()
      ensures selectedFixtureId == id
      ensures navigationLevel == old(navigationLevel) && selectedZoneId == old(selectedZoneId) && zones == old(zones)
      ensures isVMDMode == old(isVMDMode) && vmdFixtureIndex == old(vmdFixtureIndex) && fixtures == old(fixtures)
    {
      selectedFixtureId := id;
    }

    /**
     * Enter the front view of a fixture of the current zone (of all fixtures when no zone is
     * selected). An id outside that list changes nothing.
     */
    method EnterVMDMode(fixtureId: string)
      requires Valid()
      modifies this
      ensures Valid()
      ensures var zoneFixtures := ZoneFixtures(old(fixtures), old(selectedZoneId));
        var index := FindIndex(zoneFixtures, fixtureId);
        if index != -1 then
          && navigationLevel == FixtureLevel && isVMDMode && vmdFixtureIndex == index
          && zoneFixtures[vmdFixtureIndex].id == fixtureId && selectedFixtureId == Some(fixtureId)
        else
          && navigationLevel == old(navigationLevel) && isVMDMode == old(isVMDMode)
          && vmdFixtureIndex == old(vmdFixtureIndex) && selectedFixtureId == old(selectedFixtureId)
      ensures selectedZoneId == old(selectedZoneId) && zones == old(zones) && fixtures == old(fixtures)
    {
      var zoneFixtures := ZoneFixtures(fixtures, selectedZoneId);
      var index := FindIndex(zoneFixtures, fixtureId);
      if index != -1 {
        navigationLevel := FixtureLevel;
        isVMDMode := true;
        vmdFixtureIndex := index;
        selectedFixtureId := Some(fixtureId);
      }
    }

    /** Leave the front view: back to the zone if one is selected, else to the store. */
    method ExitVMDMode()
      requires Valid()
      modifies this
      ensures Valid()
      ensures navigationLevel == (if Truthy(old(selectedZoneId)) then ZoneLevel else StoreLevel)
      ensures !isVMDMode && selectedFixtureId == None
      ensures selectedZoneId == old(selectedZoneId) && zones == old(zones)
      ensures vmdFixtureIndex == old(vmdFixtureIndex) && fixtures == old(fixtures)
    {
      navigationLevel := if Truthy(selectedZoneId) then ZoneLevel else StoreLevel;
      isVMDMode := false;
      selectedFixtureId := None;
    }

    /** Step to the previous or next fixture of the current zone, never past either end. */
    method NavigateVMD(direction: Direction)
      requires Valid()
      modifies this
      ensures Valid()
      ensures var zoneFixtures := ZoneFixtures(old(fixtures), old(selectedZoneId));
        var target := VmdStep(old(vmdFixtureIndex), |zoneFixtures|, direction);
        if target != old(vmdFixtureIndex) && target < |zoneFixtures| then
          vmdFixtureIndex == target && selectedFixtureId == Some(zoneFixtures[target].id)
        else
          vmdFixtureIndex == old(vmdFixtureIndex) && selectedFixtureId == old(selectedFixtureId)
      ensures navigationLevel == old(navigationLevel) && selectedZoneId == old(selectedZoneId)
      ensures zones == old(zones) && isVMDMode == old(isVMDMode) && fixtures == old(fixtures)
    {
      var zoneFixtures := ZoneFixtures(fixtures, selectedZoneId);
      var newIndex := vmdFixtureIndex;
      if direction == Prev && vmdFixtureIndex > 0 {
        newIndex := vmdFixtureIndex - 1;
      } else if direction == Next && vmdFixtureIndex < |zoneFixtures| - 1 {
        newIndex := vmdFixtureIndex + 1;
      }
      if newIndex != vmdFixtureIndex && 0 <= newIndex < |zoneFixtures| {
        vmdFixtureIndex := newIndex;
        selectedFixtureId := Some(zoneFixtures[newIndex].id);
      }
    }

    method SetFixtures(newFixtures: seq<FixtureInstance>)
      requires Valid()
      modifies this
      ensures Valid()
      ensures fixtures == newFixtures
      ensures navigationLevel == old(navigationLevel) && selectedZoneId == old(selectedZoneId) && zones == old(zones)
      ensures selectedFixtureId == old(selectedFixtureId) && isVMDMode == old(isVMDMode) && vmdFixtureIndex == old(vmdFixtureIndex)
    {
      fixtures := newFixtures;
    }

    /** Append at the end. */
    method AddFixture(fixture: FixtureInstance)
      requires Valid()
      modifies this
      ensures Valid()
      ensures fixtures == old(fixtures) + [fixture]
      ensures navigationLevel == old(navigationLevel) && selectedZoneId == old(selectedZoneId) && zones == old(zones)
      ensures selectedFixtureId == old(selectedFixtureId) && isVMDMode == old(isVMDMode) && vmdFixtureIndex == old(vmdFixtureIndex)
    {
      fixtures := fixtures + [fixture];
    }

    /** Drop every fixture with the id. */
    method RemoveFixture(id: string)
      requires Valid()
      modifies this
      ensures Valid()
      ensures fixtures == RemoveFixtures(old(fixtures), id)
      ensures navigationLevel == old(navigationLevel) && selectedZoneId == old(selectedZoneId) && zones == old(zones)
      ensures selectedFixtureId == old(selectedFixtureId) && isVMDMode == old(isVMDMode) && vmdFixtureIndex == old(vmdFixtureIndex)
    {
      fixtures := RemoveFixtures(fixtures, id);
    }

    /** Merge `updates` into every fixture with the id. */
    method UpdateFixture(id: string, updates: FixturePatch)
      requires Valid()
      modifies this
      ensures Valid()
      ensures fixtures == UpdateFixtures(old(fixtures), id, updates)
      ensures navigationLevel == old(navigationLevel) && selectedZoneId == old(selectedZoneId) && zones == old(zones)
      ensures selectedFixtureId == old(selectedFixtureId) && isVMDMode == old(isVMDMode) && vmdFixtureIndex == old(vmdFixtureIndex)
    {
      fixtures := UpdateFixtures(fixtures, id, updates);
    }

    /** The current list's fixtures of one zone: all of them, and only them. */
    function GetFixturesByZone(zoneId: string): (r: seq<FixtureInstance>)
      reads this
      ensures forall i :: 0 <= i < |r| ==> r[i].zoneId == zoneId && r[i] in fixtures
      ensures forall i :: 0 <= i < |fixtures| && fixtures[i].zoneId == zoneId ==> fixtures[i] in r
    {
      FixturesByZone(fixtures, zoneId)
    }

    /** The selected zone's fixtures, or every fixture when no zone is selected. */
    function GetZoneFixtures(): (r: seq<FixtureInstance>)
      reads this
      ensures !Truthy(selectedZoneId) ==> r == fixtures
      ensures Truthy(selectedZoneId) ==> r == FixturesByZone(fixtures, selectedZoneId.value)
    {
      ZoneFixtures(fixtures, selectedZoneId)
    }

    /** The neighbours of a fixture within the selected zone's list, by list position. */
    function GetAdjacentFixtures(fixtureId: string): (r: Neighbours)
      reads this
      ensures var zf := ZoneFixtures(fixtures, selectedZoneId);
        var k := FindIndex(zf, fixtureId);
        && (r.prev.Some? <==> k > 0) && (r.prev.Some? ==> r.prev.value == zf[k - 1])
        && (r.next.Some? <==> k < |zf| - 1) && (r.next.Some? ==> r.next.value == zf[k + 1])
    {
      AdjacentFixtures(ZoneFixtures(fixtures, selectedZoneId), fixtureId)
    }
  }

  /** Entering a zone and then the front view of one of its fixtures, then leaving, returns to that zone. */
  method ZoneRoundTrip(s: SceneState, zoneId: string, fixtureId: string)
    requires s.Valid() && zoneId != ""
    requires exists i :: 0 <= i < |s.fixtures| && s.fixtures[i].id == fixtureId && s.fixtures[i].zoneId == zoneId
    modifies s
    ensures s.Valid()
    ensures s.navigationLevel == ZoneLevel && s.selectedZoneId == Some(zoneId)
    ensures s.selectedFixtureId == None && !s.isVMDMode
    ensures s.fixtures == old(s.fixtures)
  {
    s.EnterZoneView(zoneId);
    s.EnterVMDMode(fixtureId);
    assert s.navigationLevel == FixtureLevel && s.isVMDMode by {
      var i :| 0 <= i < |s.fixtures| && s.fixtures[i].id == fixtureId && s.fixtures[i].zoneId == zoneId;
      assert s.fixtures[i] in ZoneFixtures(s.fixtures, Some(zoneId));
    }
    s.ExitVMDMode();
  }
}
