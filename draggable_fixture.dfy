/**
 * Free dragging of a fixture on the floor: pointer-down records the offset between the
 * fixture and the floor point under the pointer, pointer-move snaps and commits a
 * collision-free position, pointer-up ends the drag. The floor point under the pointer
 * is an input (`None` when the ray misses the floor plane).
 */
module DraggableFixture {
  import opened Wrappers
  import opened StoreTypes
  import opened SnapUtils
  import opened Editor

  /** The `dragOffset` state: fixture position less the floor point, on x and z. */
  datatype Offset = Offset(x: real, z: real)

  predicate IsThisFixtureDragging(view: EditorView, fixture: Fixture) {
    view.isDragging && view.draggedFixtureId == Some(fixture.id)
  }

  /** Dragging can start only in edit mode with the move tool, on a fixture that is not ghosted. */
  predicate CanStartDrag(view: EditorView, isGhosted: bool) {
    view.editMode == Edit && view.transformMode == Move && !isGhosted
  }

  function OffsetFrom(position: Point3D, hit: Point2D): Offset {
    Offset(position.x - hit.x, position.z - hit.z)
  }

  /** The unsnapped position under the pointer; the height is the fixture's own. */
  function RawPosition(hit: Point2D, offset: Offset, y: real): Point3D {
    Point3D(hit.x + offset.x, y, hit.z + offset.z)
  }

  /** Moving back to the floor point that was pressed gives back the fixture's position. */
  lemma OffsetRoundTrip(position: Point3D, hit: Point2D)
    ensures RawPosition(hit, OffsetFrom(position, hit), position.y) == position
  {
  }

  /** The pointer-move handler as a function of the store, the offset and the floor point. */
  function DragMoveOf(fixture: Fixture, view: EditorView, offset: Option<Offset>, hit: Option<Point2D>,
    trig: real -> Trig): (calls: seq<EditorCall>)
    ensures |calls| <= 1
    ensures calls != [] ==> calls[0].MoveFixture? && calls[0].fixtureId == fixture.id
  {
    if !IsThisFixtureDragging(view, fixture) || offset.None? || hit.None? then []
    else
      var walls := StoreWalls(view.currentStore);
      var others := Filter(view.fixtures, (f: Fixture) => f.id != fixture.id);
      var raw := RawPosition(hit.value, offset.value, fixture.position.y);
      var snap := SnapToFixturesAndWalls(raw, fixture, others, walls, SNAP_DISTANCE, trig);
      if !Collides(fixture, snap.position, others, trig) && !CollidesWithWall(fixture, snap.position, walls, trig)
      then [MoveFixture(fixture.id, snap.position)]
      else []
  }

  /**
   * A drag step commits at most one move, of this fixture, at its own height, to a position
   * that enters neither a wall nor any other fixture of the store.
   */
  lemma DragCommitIsClear(fixture: Fixture, view: EditorView, offset: Option<Offset>, hit: Option<Point2D>,
    trig: real -> Trig)
    ensures var calls := DragMoveOf(fixture, view, offset, hit, trig);
      calls != [] ==>
        && |calls| == 1 && calls[0].MoveFixture? && calls[0].fixtureId == fixture.id
        && calls[0].position.y == fixture.position.y
        && !Collides(fixture, calls[0].position, view.fixtures, trig)
        && !CollidesWithWall(fixture, calls[0].position, StoreWalls(view.currentStore), trig)
  {
    var calls := DragMoveOf(fixture, view, offset, hit, trig);
    if calls != [] {
      var walls := StoreWalls(view.currentStore);
      var others := Filter(view.fixtures, (f: Fixture) => f.id != fixture.id);
      var raw := RawPosition(hit.value, offset.value, fixture.position.y);
      CombinedSnapKeepsHeight(raw, fixture, others, walls, SNAP_DISTANCE, trig);
      CollidesIgnoresSelf(fixture, calls[0].position, view.fixtures, trig);
    }
  }

  /** Pointer-move does nothing unless this fixture is being dragged with an offset and a floor point. */
  lemma DragMoveNeedsDrag(fixture: Fixture, view: EditorView, offset: Option<Offset>, hit: Option<Point2D>,
    trig: real -> Trig)
    requires !IsThisFixtureDragging(view, fixture) || offset.None? || hit.None?
    ensures DragMoveOf(fixture, view, offset, hit, trig) == []
  {
  }

  /** `handleClick`: select only when no drag is in progress. */
  function HandleClick(view: EditorView): (calls: seq<EditorCall>)
    ensures calls == [SelectFixture] <==> !view.isDragging
    ensures calls == [] <==> view.isDragging
  {
    if !view.isDragging then [SelectFixture] else []
  }

  /** The per-fixture drag state. */
  class DragHandler {
    var dragOffset: Option<Offset>

    constructor()
      ensures dragOffset == None
    {
      dragOffset := None;
    }

    /**
     * `handlePointerDown`: outside edit/move mode or on a ghosted fixture nothing happens.
     * Otherwise the fixture is selected, and with a floor point the offset is recorded and
     * the drag starts.
     */
    method PointerDown(fixture: Fixture, view: EditorView, isGhosted: bool, hit: Option<Point2D>)
      returns (calls: seq<EditorCall>)
      modifies this
      ensures !CanStartDrag(view, isGhosted) ==> calls == [] && dragOffset == old(dragOffset)
      ensures CanStartDrag(view, isGhosted) && hit.None? ==> calls == [SelectFixture] && dragOffset == old(dragOffset)
      ensures CanStartDrag(view, isGhosted) && hit.Some? ==>
        calls == [SelectFixture, StartDragging(fixture.id)]
        && dragOffset == Some(OffsetFrom(fixture.position, hit.value))
    {
      if view.editMode != Edit || view.transformMode != Move || isGhosted {
        return [];
      }
      calls := [SelectFixture];
      if hit.Some? {
        dragOffset := Some(Offset(fixture.position.x - hit.value.x, fixture.position.z - hit.value.z));
        calls := calls + [StartDragging(fixture.id)];
      }
    }

    /** `handlePointerMove`: snap the position under the pointer and commit it when clear. */
    method PointerMove(fixture: Fixture, view: EditorView, hit: Option<Point2D>, trig: real -> Trig)
      returns (calls: seq<EditorCall>)
      ensures calls == DragMoveOf(fixture, view, dragOffset, hit, trig)
    {
      if !(view.isDragging && view.draggedFixtureId == Some(fixture.id)) || dragOffset.None? {
        return [];
      }
      if hit.None? {
        return [];
      }
      var walls := if view.currentStore.Some? then view.currentStore.value.walls else [];
      var rawPosition := Point3D(hit.value.x + dragOffset.value.x, fixture.position.y, hit.value.z + dragOffset.value.z);
      var otherFixtures := Filter(view.fixtures, (f: Fixture) => f.id != fixture.id);
      var snapResult := SnapToFixturesAndWalls(rawPosition, fixture, otherFixtures, walls, SNAP_DISTANCE, trig);
      var hasFixtureCollision := CheckCollision(fixture, snapResult.position, otherFixtures, trig);
      var hasWallCollision := CheckWallCollision(fixture, snapResult.position, walls, trig);
      if !hasFixtureCollision && !hasWallCollision {
        return [MoveFixture(fixture.id, snapResult.position)];
      }
      return [];
    }

    /** `handlePointerUp`: only for the fixture being dragged, clear the offset and stop dragging. */
    method PointerUp(fixture: Fixture, view: EditorView) returns (calls: seq<EditorCall>)
      modifies this
      ensures IsThisFixtureDragging(view, fixture) ==> calls == [StopDragging] && dragOffset == None
      ensures !IsThisFixtureDragging(view, fixture) ==> calls == [] && dragOffset == old(dragOffset)
    {
      if !(view.isDragging && view.draggedFixtureId == Some(fixture.id)) {
        return [];
      }
      dragOffset := None;
      calls := [StopDragging];
    }
  }

  /**
   * A press followed by a move to the same floor point: the recorded offset cancels out, so
   * the move snaps from the fixture's own position.
   */
  method PressAndHold(handler: DragHandler, fixture: Fixture, view: EditorView, hit: Point2D, trig: real -> Trig)
    returns (calls: seq<EditorCall>)
    modifies handler
    requires CanStartDrag(view, false) && IsThisFixtureDragging(view, fixture)
    ensures handler.dragOffset == Some(OffsetFrom(fixture.position, hit))
    ensures calls == DragMoveOf(fixture, view, Some(OffsetFrom(fixture.position, hit)), Some(hit), trig)
    ensures RawPosition(hit, handler.dragOffset.value, fixture.position.y) == fixture.position
  {
    var down := handler.PointerDown(fixture, view, false, Some(hit));
    calls := handler.PointerMove(fixture, view, Some(hit), trig);
    OffsetRoundTrip(fixture.position, hit);
  }
}
