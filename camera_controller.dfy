/**
 * Where the camera is sent for each navigation level, and which orbit controls are allowed.
 * The animation that moves it there is not part of this model; a target is the end point of
 * that animation together with the point the camera looks at.
 */
module CameraController {
  import opened Wrappers
  import opened StoreTypes
  import opened SceneStore
  import opened UIStore

  /** No animation at all, or one ending at `position` while looking at `lookAt`. */
  datatype CameraMove = NoMotion | Tween(position: Point3D, lookAt: Point3D)

  const PI: real := 3.141592653589793

  /** Head-on view of a fixture, 3 m in front of its front face, at half its height. */
  function VmdCamera(f: FixtureInstance): (m: CameraMove)
    ensures m.Tween?
    ensures m.lookAt == Point3D(f.position.x, f.height / 2.0, f.position.z)
    ensures m.position.x == m.lookAt.x && m.position.y == m.lookAt.y
    ensures m.position.z - f.position.z == f.depth / 2.0 + 3.0
  {
    var targetY := f.height / 2.0;
    Tween(Point3D(f.position.x, targetY, f.position.z + f.depth / 2.0 + 3.0), Point3D(f.position.x, targetY, f.position.z))
  }

  /** Index `k` holds the first zone with that id. */
  ghost predicate IsFirstZone(zones: seq<Zone>, id: string, k: int) {
    && 0 <= k < |zones| && zones[k].id == id
    && forall j :: 0 <= j < k ==> zones[j].id != id
  }

  /** The first zone, in list order, whose id is the given one. */
  function FindZone(zones: seq<Zone>, id: string): (r: Option<Zone>)
    ensures r.None? <==> forall k :: 0 <= k < |zones| ==> zones[k].id != id
    ensures r.Some? ==> exists k :: IsFirstZone(zones, id, k) && zones[k] == r.value
  {
    if zones == [] then None
    else if zones[0].id == id then
      assert IsFirstZone(zones, id, 0);
      Some(zones[0])
    else
      var rest := FindZone(zones[1..], id);
      FirstZoneShift(zones, id);
      assert forall k :: 0 < k < |zones| ==> zones[k] == zones[1..][k - 1];
      rest
  }

  /** Past a first zone with another id, the first match moves one place down. */
  lemma FirstZoneShift(zones: seq<Zone>, id: string)
    requires |zones| > 0 && zones[0].id != id
    ensures forall k :: IsFirstZone(zones[1..], id, k) ==> IsFirstZone(zones, id, k + 1)
  {
    forall k | IsFirstZone(zones[1..], id, k)
      ensures IsFirstZone(zones, id, k + 1)
    {
      forall j | 0 < j < k + 1
        ensures zones[j].id != id
      {
        assert zones[j] == zones[1..][j - 1];
      }
    }
  }

  function Max(a: real, b: real): real {
    if a >= b then a else b
  }

  /** Over the zone's centre, at least 8 m up and higher for large zones, set back by 0.3 of its size. */
  function ZoneCamera(b: ZoneBounds): (m: CameraMove)
    ensures m.Tween?
  {
    var centerX := (b.minX + b.maxX) / 2.0;
    var centerZ := (b.minZ + b.maxZ) / 2.0;
    var maxDim := Max(b.maxX - b.minX, b.maxZ - b.minZ);
    Tween(Point3D(centerX, Max(8.0, maxDim * 1.2), centerZ + maxDim * 0.3), Point3D(centerX, 0.0, centerZ))
  }

  /**
   * The zone camera looks at the zone's centre on the floor from a height of at least 8 m
   * that grows with the larger side, and sits behind the centre for a well-formed zone.
   */
  lemma ZoneCameraPlacement(b: ZoneBounds)
    ensures var m := ZoneCamera(b);
      var maxDim := Max(b.maxX - b.minX, b.maxZ - b.minZ);
      && m.lookAt == Point3D((b.minX + b.maxX) / 2.0, 0.0, (b.minZ + b.maxZ) / 2.0)
      && m.position.x == m.lookAt.x
      && m.position.y == Max(8.0, 1.2 * maxDim)
      && m.position.y >= 8.0 && m.position.y >= 1.2 * maxDim
      && m.position.z == m.lookAt.z + 0.3 * maxDim
      && (b.minX <= b.maxX ==> m.position.z >= m.lookAt.z)
  {
  }

  /**
   * The store-level camera: it always looks at the orbit target on the floor, from 30 m
   * straight above it in the top view and from (20, 20, 20) in perspective; front view
   * sends nothing.
   */
  function StoreCamera(viewMode: ViewMode, target: Point3D): (m: CameraMove)
    ensures m == NoMotion <==> viewMode == Front
    ensures m.Tween? ==> m.lookAt == Point3D(target.x, 0.0, target.z)
    ensures viewMode == Top ==> m.position.x == m.lookAt.x && m.position.z == m.lookAt.z && m.position.y == 30.0
    ensures viewMode == Perspective ==> m.position == Point3D(20.0, 20.0, 20.0)
  {
    match viewMode
    case Top => Tween(Point3D(target.x, 30.0, target.z), Point3D(target.x, 0.0, target.z))
    case Perspective => Tween(Point3D(20.0, 20.0, 20.0), Point3D(target.x, 0.0, target.z))
    case Front => NoMotion
  }

  /** The effect that sends the camera, as a function of the scene and UI state it reads. */
  function CameraTarget(level: NavigationLevel, isVMDMode: bool, vmdFixtureIndex: int,
    fixtures: seq<FixtureInstance>, selectedZoneId: Option<string>, zones: seq<Zone>,
    viewMode: ViewMode, target: Point3D): (m: CameraMove)
    ensures level == FixtureLevel && !isVMDMode ==> m == NoMotion
    ensures level == ZoneLevel && !Truthy(selectedZoneId) ==> m == NoMotion
    ensures level == StoreLevel ==> m == StoreCamera(viewMode, target)
  {
    if level == FixtureLevel && isVMDMode then
      var zoneFixtures := ZoneFixtures(fixtures, selectedZoneId);
      if 0 <= vmdFixtureIndex < |zoneFixtures| then VmdCamera(zoneFixtures[vmdFixtureIndex]) else NoMotion
    else if level == ZoneLevel && Truthy(selectedZoneId) then
      var zone := FindZone(zones, selectedZoneId.value);
      if zone.Some? then ZoneCamera(zone.value.bounds) else NoMotion
    else if level == StoreLevel then StoreCamera(viewMode, target)
    else NoMotion
  }

  /**
   * In front view the camera goes to the zone fixture at the VMD index, and stays put when
   * the index is outside the zone's list.
   */
  lemma VmdTarget(isVMDMode: bool, vmdFixtureIndex: int, fixtures: seq<FixtureInstance>,
    selectedZoneId: Option<string>, zones: seq<Zone>, viewMode: ViewMode, target: Point3D)
    ensures var zf := ZoneFixtures(fixtures, selectedZoneId);
      var m := CameraTarget(FixtureLevel, true, vmdFixtureIndex, fixtures, selectedZoneId, zones, viewMode, target);
      && (0 <= vmdFixtureIndex < |zf| ==> m == VmdCamera(zf[vmdFixtureIndex]))
      && (!(0 <= vmdFixtureIndex < |zf|) ==> m == NoMotion)
  {
  }

  /** Once a fixture of the zone is entered in front view, the camera is sent to that fixture. */
  lemma CameraFollowsVmdEntry(fixtures: seq<FixtureInstance>, selectedZoneId: Option<string>, id: string,
    zones: seq<Zone>, viewMode: ViewMode, target: Point3D)
    requires FindIndex(ZoneFixtures(fixtures, selectedZoneId), id) >= 0
    ensures var zf := ZoneFixtures(fixtures, selectedZoneId);
      var k := FindIndex(zf, id);
      var m := CameraTarget(FixtureLevel, true, k, fixtures, selectedZoneId, zones, viewMode, target);
      m.Tween? && m.lookAt.x == zf[k].position.x && m.lookAt.z == zf[k].position.z && zf[k].id == id
  {
  }

  /**
   * At the store level, whatever the VMD flag, the top view flies to 30 m above the orbit
   * target, perspective to (20, 20, 20), both looking at the target on the floor, and front
   * view leaves the camera where it is.
   */
  lemma StoreTarget(isVMDMode: bool, vmdFixtureIndex: int, fixtures: seq<FixtureInstance>,
    selectedZoneId: Option<string>, zones: seq<Zone>, viewMode: ViewMode, target: Point3D)
    ensures var m := CameraTarget(StoreLevel, isVMDMode, vmdFixtureIndex, fixtures, selectedZoneId, zones, viewMode, target);
      && (viewMode == Top ==> m == Tween(Point3D(target.x, 30.0, target.z), Point3D(target.x, 0.0, target.z)))
      && (viewMode == Perspective ==> m == Tween(Point3D(20.0, 20.0, 20.0), Point3D(target.x, 0.0, target.z)))
      && (viewMode == Front ==> m == NoMotion)
  {
  }

  /** The zone camera needs a selected zone that exists; otherwise nothing moves. */
  lemma ZoneTarget(vmdFixtureIndex: int, fixtures: seq<FixtureInstance>, selectedZoneId: Option<string>,
    zones: seq<Zone>, viewMode: ViewMode, target: Point3D)
    ensures var m := CameraTarget(ZoneLevel, false, vmdFixtureIndex, fixtures, selectedZoneId, zones, viewMode, target);
      && (!Truthy(selectedZoneId) ==> m == NoMotion)
      && (Truthy(selectedZoneId) && (forall k :: 0 <= k < |zones| ==> zones[k].id != selectedZoneId.value) ==> m == NoMotion)
      && (Truthy(selectedZoneId) && m.Tween? ==> m.position.y >= 8.0)
  {
    if Truthy(selectedZoneId) {
      var zone := FindZone(zones, selectedZoneId.value);
      if zone.Some? {
        ZoneCameraPlacement(zone.value.bounds);
      }
    }
  }

  /** The `OrbitControls` settings. */
  datatype OrbitLimits = OrbitLimits(
    minPolarAngle: real, maxPolarAngle: real,
    enableRotate: bool, enablePan: bool, enableZoom: bool,
    minDistance: real, maxDistance: real)

  /** The orbit settings for a level and view mode; every zoom and polar range is non-empty. */
  function Limits(level: NavigationLevel, viewMode: ViewMode): (l: OrbitLimits)
    ensures 0.0 < l.minDistance < l.maxDistance
    ensures 0.0 <= l.minPolarAngle < l.maxPolarAngle
  {
    var isFixtureMode := level == FixtureLevel;
    var isZoneMode := level == ZoneLevel;
    var isTopView := viewMode == Top && level == StoreLevel;
    OrbitLimits(
      if isFixtureMode then PI / 4.0 else 0.0,
      if isFixtureMode then PI / 2.0 else if isTopView then 0.1 else PI / 2.0,
      !isFixtureMode && !isTopView,
      !isFixtureMode,
      true,
      if isFixtureMode then 2.0 else if isZoneMode then 3.0 else 5.0,
      if isFixtureMode then 10.0 else if isZoneMode then 30.0 else 100.0)
  }

  /**
   * At every level the zoom range and the polar range are non-empty; rotating is off in
   * front view and in the store's top view, panning only in front view; zoom is always on.
   */
  lemma LimitsWellFormed(level: NavigationLevel, viewMode: ViewMode)
    ensures var l := Limits(level, viewMode);
      && 0.0 < l.minDistance < l.maxDistance
      && 0.0 <= l.minPolarAngle < l.maxPolarAngle
      && (l.enableRotate <==> level != FixtureLevel && !(level == StoreLevel && viewMode == Top))
      && (l.enablePan <==> level != FixtureLevel)
      && l.enableZoom
      && (level == FixtureLevel ==> l.minDistance == 2.0 && l.maxDistance == 10.0)
      && (level == ZoneLevel ==> l.minDistance == 3.0 && l.maxDistance == 30.0)
      && (level == StoreLevel ==> l.minDistance == 5.0 && l.maxDistance == 100.0)
  {
  }
}
