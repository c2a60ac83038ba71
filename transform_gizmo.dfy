/**
 * The transform gizmo's commit policy: an axis move is wall-snapped and committed only when
 * it hits neither a wall nor another fixture; a rotation is passed on as the raw angle.
 */
module TransformGizmo {
  import opened Wrappers
  import opened StoreTypes
  import opened SnapUtils
  import opened Editor

  /** The gizmo arrow being dragged. */
  datatype Axis = X | Z

  /** The gizmo shown for a fixture. */
  datatype Gizmo = MoveGizmo | RotateGizmo

  /** Nothing is shown outside edit mode; otherwise the transform mode picks the gizmo. */
  function ShownGizmo(editMode: EditMode, transformMode: TransformMode): (g: Option<Gizmo>)
    ensures g.Some? <==> editMode == Edit
    ensures g == Some(MoveGizmo) <==> editMode == Edit && transformMode == Move
    ensures g == Some(RotateGizmo) <==> editMode == Edit && transformMode == Rotate
  {
    if editMode != Edit then None
    else match transformMode
      case Move => Some(MoveGizmo)
      case Rotate => Some(RotateGizmo)
  }

  /** The candidate before snapping: the fixture's position moved by `delta` along one axis. */
  function Nudged(p: Point3D, axis: Axis, delta: real): (r: Point3D)
    ensures r.y == p.y
    ensures axis == X ==> r.x == p.x + delta && r.z == p.z
    ensures axis == Z ==> r.z == p.z + delta && r.x == p.x
  {
    if axis == X then p.(x := p.x + delta) else p.(z := p.z + delta)
  }

  /** The position `handleMove` would commit: the wall snap if one was reported, else the candidate. */
  function MoveTarget(fixture: Fixture, walls: seq<Wall>, axis: Axis, delta: real, trig: real -> Trig): (r: Point3D)
    ensures r.y == fixture.position.y
  {
    var candidate := Nudged(fixture.position, axis, delta);
    WallSnapKeepsHeight(candidate, fixture, walls, SNAP_DISTANCE, trig);
    var snap := WallSnapOf(candidate, fixture, walls, SNAP_DISTANCE, trig);
    if Truthy(snap.wallId) then snap.position else candidate
  }

  /** `handleMove` as a function of the store's fixtures and walls: the store calls it makes. */
  function MoveCallsOf(fixture: Fixture, fixtures: seq<Fixture>, walls: seq<Wall>, axis: Axis, delta: real,
    trig: real -> Trig): (calls: seq<EditorCall>)
    ensures |calls| <= 1
    ensures calls != [] ==> calls[0] == MoveFixture(fixture.id, MoveTarget(fixture, walls, axis, delta, trig))
  {
    var p := MoveTarget(fixture, walls, axis, delta, trig);
    var others := Filter(fixtures, (f: Fixture) => f.id != fixture.id);
    if CollidesWithWall(fixture, p, walls, trig) || Collides(fixture, p, others, trig) then []
    else [MoveFixture(fixture.id, p)]
  }

  /**
   * A move is committed exactly when its target enters neither a wall nor another fixture
   * of the full list; a committed move carries the fixture's id and keeps its height.
   */
  lemma MoveCommitsIffClear(fixture: Fixture, fixtures: seq<Fixture>, walls: seq<Wall>, axis: Axis, delta: real,
    trig: real -> Trig)
    ensures var p := MoveTarget(fixture, walls, axis, delta, trig);
      var calls := MoveCallsOf(fixture, fixtures, walls, axis, delta, trig);
      && (calls != [] <==> !CollidesWithWall(fixture, p, walls, trig) && !Collides(fixture, p, fixtures, trig))
      && (calls != [] ==> calls == [MoveFixture(fixture.id, p)] && p.y == fixture.position.y)
  {
    var candidate := Nudged(fixture.position, axis, delta);
    CollidesIgnoresSelf(fixture, MoveTarget(fixture, walls, axis, delta, trig), fixtures, trig);
    WallSnapKeepsHeight(candidate, fixture, walls, SNAP_DISTANCE, trig);
  }

  /** Far from every wall, a clear move commits the raw candidate: only the dragged axis changes. */
  lemma MoveWithoutWallIsRaw(fixture: Fixture, walls: seq<Wall>, axis: Axis, delta: real, trig: real -> Trig)
    requires var candidate := Nudged(fixture.position, axis, delta);
      NoneEligible(WallCandidates(BoundsAt(fixture, candidate, trig), walls, SNAP_DISTANCE))
    ensures MoveTarget(fixture, walls, axis, delta, trig) == Nudged(fixture.position, axis, delta)
  {
    WallSnapNoFallback(Nudged(fixture.position, axis, delta), fixture, walls, SNAP_DISTANCE, trig);
  }

  /** `handleMove`: copy the position, add `delta` on one axis, snap to walls, then test and commit. */
  method HandleMove(fixture: Fixture, fixtures: seq<Fixture>, currentStore: Option<Store>, axis: Axis, delta: real,
    trig: real -> Trig)
    returns (calls: seq<EditorCall>)
    ensures calls == MoveCallsOf(fixture, fixtures, StoreWalls(currentStore), axis, delta, trig)
  {
    var walls := if currentStore.Some? then currentStore.value.walls else [];
    var otherFixtures := Filter(fixtures, (f: Fixture) => f.id != fixture.id);
    var newPosition := fixture.position;
    if axis == X {
      newPosition := newPosition.(x := newPosition.x + delta);
    } else {
      newPosition := newPosition.(z := newPosition.z + delta);
    }
    var wallSnapResult := SnapToWalls(newPosition, fixture, walls, SNAP_DISTANCE, trig);
    var finalPosition := if Truthy(wallSnapResult.wallId) then wallSnapResult.position else newPosition;
    var hitsWall := CheckWallCollision(fixture, finalPosition, walls, trig);
    if hitsWall {
      return [];
    }
    var hitsFixture := CheckCollision(fixture, finalPosition, otherFixtures, trig);
    if hitsFixture {
      return [];
    }
    return [MoveFixture(fixture.id, finalPosition)];
  }

  // ---------------------------------------------------------------------------
  // One mouse move of the move gizmo

  /**
   * A mouse move on an arrow as written: the world delta along the dragged arrow, split into
   * its x and z parts, is sent as two axis moves in that order. Both are computed from the
   * fixture as captured at the last render, so the second starts again from the old position.
   */
  function AxisDragCallsAsWritten(fixture: Fixture, fixtures: seq<Fixture>, walls: seq<Wall>, dx: real, dz: real,
    trig: real -> Trig): (calls: seq<EditorCall>)
    ensures |calls| <= 2
    ensures forall i :: 0 <= i < |calls| ==> calls[i].MoveFixture? && calls[i].fixtureId == fixture.id
  {
    var first := MoveCallsOf(fixture, fixtures, walls, X, dx, trig);
    var second := MoveCallsOf(fixture, fixtures, walls, Z, dz, trig);
    MovesOfFixtureConcat(first, second, fixture.id);
    first + second
  }

  /** Every call is a move of the fixture with that id. */
  predicate MovesOf(calls: seq<EditorCall>, id: string) {
    forall i :: 0 <= i < |calls| ==> calls[i].MoveFixture? && calls[i].fixtureId == id
  }

  lemma MovesOfFixtureConcat(a: seq<EditorCall>, b: seq<EditorCall>, id: string)
    requires MovesOf(a, id) && MovesOf(b, id)
    ensures MovesOf(a + b, id)
  {
  }

  /**
   * With no walls and no other fixture, dragging the x arrow of an unrotated fixture (a z part
   * of 0) commits the x move and then moves the fixture back: the last commit is the old position.
   */
  lemma AxisDragUndoesFirstAxis(fixture: Fixture, dx: real, trig: real -> Trig)
    ensures var calls := AxisDragCallsAsWritten(fixture, [fixture], [], dx, 0.0, trig);
      calls == [MoveFixture(fixture.id, fixture.position.(x := fixture.position.x + dx)),
                MoveFixture(fixture.id, fixture.position)]
  {
    NoWallKeepsNudge(fixture, X, dx, trig);
    NoWallKeepsNudge(fixture, Z, 0.0, trig);
  }

  /** Alone in the store and with no walls, any axis move commits the raw nudged position. */
  lemma NoWallKeepsNudge(fixture: Fixture, axis: Axis, delta: real, trig: real -> Trig)
    ensures MoveCallsOf(fixture, [fixture], [], axis, delta, trig) == [MoveFixture(fixture.id, Nudged(fixture.position, axis, delta))]
  {
    MoveWithoutWallIsRaw(fixture, [], axis, delta, trig);
    MoveCommitsIffClear(fixture, [fixture], [], axis, delta, trig);
  }

  /** The drag target for a whole world delta: the moved position, wall-snapped if a wall is reported. */
  function AxisDragTarget(fixture: Fixture, walls: seq<Wall>, dx: real, dz: real, trig: real -> Trig): (r: Point3D)
    ensures r.y == fixture.position.y
  {
    var candidate := fixture.position.(x := fixture.position.x + dx, z := fixture.position.z + dz);
    WallSnapKeepsHeight(candidate, fixture, walls, SNAP_DISTANCE, trig);
    var snap := WallSnapOf(candidate, fixture, walls, SNAP_DISTANCE, trig);
    if Truthy(snap.wallId) then snap.position else candidate
  }

  /**
   * A mouse move as evidently intended: the whole world delta is one move, snapped, tested
   * and committed like `handleMove`.
   */
  function AxisDragCalls(fixture: Fixture, fixtures: seq<Fixture>, walls: seq<Wall>, dx: real, dz: real,
    trig: real -> Trig): (calls: seq<EditorCall>)
    ensures |calls| <= 1
    ensures calls != [] ==> calls == [MoveFixture(fixture.id, AxisDragTarget(fixture, walls, dx, dz, trig))]
  {
    var p := AxisDragTarget(fixture, walls, dx, dz, trig);
    var others := Filter(fixtures, (f: Fixture) => f.id != fixture.id);
    if CollidesWithWall(fixture, p, walls, trig) || Collides(fixture, p, others, trig) then []
    else [MoveFixture(fixture.id, p)]
  }

  /**
   * The corrected step keeps both parts of the delta: alone in the store and with no walls, the
   * fixture ends at its position moved by (dx, dz). With a z part of 0 it is exactly the
   * single x-axis move.
   */
  lemma AxisDragKeepsBothParts(fixture: Fixture, fixtures: seq<Fixture>, walls: seq<Wall>, dx: real, dz: real,
    trig: real -> Trig)
    ensures AxisDragCalls(fixture, [fixture], [], dx, dz, trig)
      == [MoveFixture(fixture.id, fixture.position.(x := fixture.position.x + dx, z := fixture.position.z + dz))]
    ensures AxisDragCalls(fixture, fixtures, walls, dx, 0.0, trig) == MoveCallsOf(fixture, fixtures, walls, X, dx, trig)
  {
    var candidate := fixture.position.(x := fixture.position.x + dx, z := fixture.position.z + dz);
    WallSnapNoFallback(candidate, fixture, [], SNAP_DISTANCE, trig);
    var p := AxisDragTarget(fixture, [], dx, dz, trig);
    CollidesIgnoresSelf(fixture, p, [fixture], trig);
    assert fixture.position.(x := fixture.position.x + dx, z := fixture.position.z + 0.0) == Nudged(fixture.position, X, dx);
  }

  /** `handleRotate`: the angle goes to `rotateFixtureTo` unchanged. */
  function HandleRotate(fixtureId: string, angle: real): (calls: seq<EditorCall>)
    ensures |calls| == 1 && calls[0].RotateFixtureTo?
    ensures calls[0].fixtureId == fixtureId && calls[0].angle == angle
  {
    [RotateFixtureTo(fixtureId, angle)]
  }

  /** Pointer-down on the ring: with a pointer angle, the start angle is that angle less the rotation. */
  function RotateStart(pointerAngle: Option<real>, rotation: real): (start: Option<real>)
    ensures start.Some? <==> pointerAngle.Some?
    ensures start.Some? ==> start.value + rotation == pointerAngle.value
  {
    if pointerAngle.Some? then Some(pointerAngle.value - rotation) else None
  }

  /** Mouse-move while rotating: with a pointer angle, the new rotation is it less the start angle. */
  function RotateMove(fixtureId: string, pointerAngle: Option<real>, startAngle: real): (calls: seq<EditorCall>)
    ensures calls == [] <==> pointerAngle.None?
    ensures calls != [] ==> calls == [RotateFixtureTo(fixtureId, pointerAngle.value - startAngle)]
  {
    if pointerAngle.Some? then HandleRotate(fixtureId, pointerAngle.value - startAngle) else []
  }

  /**
   * The rotation follows the pointer from where it was pressed: turning the pointer by `turn`
   * turns the fixture by `turn`, so at the press point the fixture keeps its rotation.
   */
  lemma RotationFollowsPointer(fixtureId: string, rotation: real, downAngle: real, turn: real)
    ensures var start := RotateStart(Some(downAngle), rotation);
      start.Some? && RotateMove(fixtureId, Some(downAngle + turn), start.value)
        == [RotateFixtureTo(fixtureId, rotation + turn)]
  {
  }

  /** A pointer that leaves the floor plane changes nothing. */
  lemma RotateWithoutAngleIsIgnored(fixtureId: string, startAngle: real)
    ensures RotateMove(fixtureId, None, startAngle) == []
  {
  }
}
