# planogram — a Dafny model of the editor's geometry, navigation and layout store

planogram is a 3D store-layout editor. The front end places fixtures (gondolas, wall
shelves, refrigerators, ...) on a store floor. A scene store tracks how far the user has
navigated (store → zone → one fixture in the head-on VMD view). Snapping and collision logic
keeps a dragged fixture flush with its neighbours and walls and out of them. A small NestJS
back end keeps one grid layout per store id.

This project models that core in Dafny:

- `SnapUtils`: rotation-aware bounding boxes, wall boxes, grid rounding, the snap searches
  for fixtures and walls, the strict collision tests, the combined snap with its wall
  roll-back, and the push-out correction.
- `SceneStore`: the navigation state machine and the fixture list, as a class.
- `UIStore`: the view-mode / sidebar / loading store, as a class.
- `Editor`: the store calls made by the editing components, as values.
- `TransformGizmo`, `DraggableFixture`, `FixtureEditPanel`: the move/rotate gizmo, the free
  drag, and the edit panel's handlers.
- `FixtureRenderer`, `Minimap`, `CameraController`: what is derived before drawing.
- `StoreSelector`: the upload validator, the uploaded-list upsert and the selection order.
- `StoreTypes`: the datatypes and default tables.
- `StoresService`, `StoresController`: the back end's layout table and its HTTP handlers.

Modelling conventions:

- Numbers are `real`. `Math.round(x)` is `Floor(x + 0.5)`.
- `Math.cos` and `Math.sin` are foreign. The |cos θ| and |sin θ| a box needs come from a
  parameter `trig: real -> Trig`.
- JavaScript truthiness is explicit where the code relies on it. `Truthy(o)` holds for a
  present, non-empty string.
- Components do not change state of their own. A handler returns the store calls it makes
  (`seq<EditorCall>`), in order. The empty sequence means it returned early.
- The loops of `snapToFixtures`, `snapToWalls`, `checkCollision`, `checkWallCollision`,
  `clampToWallBounds` and `handleShelfCountChange` are Dafny methods with loops. Each is
  proved equal to a specification function, and the properties are lemmas about that
  function.
- The snap searches are written as one fold (`Scan`) over an explicit list of candidate
  proposals: six per neighbour fixture, two per wall, in the source's order. The lemmas
  about the fold (first strict minimum wins, nothing eligible means nothing chosen) serve
  both searches.

## Model

| member | source | states |
|---|---|---|
| SnapUtils.GetFixtureBounds | frontend/src/components/editor/snapUtils.ts:38-60 | the box is centred on the fixture's x and z; its x side is width × abs cos + depth × abs sin of the rotation, and its z side width × abs sin + depth × abs cos |
| SnapUtils.BoundsUnrotated | frontend/src/components/editor/snapUtils.ts:42-48 | with cos 1 and sin 0 the effective width and depth are the dimensions |
| SnapUtils.BoundsQuarterTurn | frontend/src/components/editor/snapUtils.ts:42-48 | with cos 0 and sin 1 (a quarter turn) width and depth are swapped |
| SnapUtils.BoundsDependOnlyOnTrig | frontend/src/components/editor/snapUtils.ts:42-48 | a box depends on the rotation only through its absolute cosine and sine |
| SnapUtils.BoundsOrdered | frontend/src/components/editor/snapUtils.ts:38-60 | with non-negative dimensions and absolute cosine and sine in [0, 1] the box is not inverted and contains its centre |
| SnapUtils.GetWallBounds | frontend/src/components/editor/snapUtils.ts:72-93 | horizontal iff the z extent is below 0.01, vertical iff the x extent is; on each axis the box runs from the smaller end coordinate less half the thickness to the larger one plus half, so each side is the segment's extent plus the thickness |
| SnapUtils.WallBoundsContainSegment | frontend/src/components/editor/snapUtils.ts:72-93 | with a non-negative thickness both end points lie inside the wall's box |
| SnapUtils.SnapToGrid | frontend/src/components/editor/snapUtils.ts:96-98 | the result is a whole multiple of the grid size and lies within half a grid step of the input |
| SnapUtils.SnapToGridIdempotent | frontend/src/components/editor/snapUtils.ts:96-98 | a value already on the grid is returned unchanged |
| SnapUtils.ScanConcat | frontend/src/components/editor/snapUtils.ts:112-213 | the search over two lists of proposals is the search over the first, continued over the second |
| SnapUtils.ScanChoosesFirstMin | frontend/src/components/editor/snapUtils.ts:119-212 | only strictly better proposals replace the best, so the first eligible proposal of least distance wins; nothing is chosen iff no proposal is eligible |
| SnapUtils.ScanConsistent | frontend/src/components/editor/snapUtils.ts:112-213 | the best result always matches the proposal it came from, and y is never changed |
| SnapUtils.ScanOutcome | frontend/src/components/editor/snapUtils.ts:119-212 | the winning proposal's position, id and edge are the result, at the dragged height |
| SnapUtils.FixtureCandidateOrigin | frontend/src/components/editor/snapUtils.ts:112-115 | every proposal comes from a neighbour in the list whose id differs from the target's |
| SnapUtils.SnapToFixtures | frontend/src/components/editor/snapUtils.ts:101-225 | the loop over neighbours with its six checks each returns the first-minimum fold over all proposals, with the grid fallback |
| SnapUtils.SnapEdgesX | frontend/src/components/editor/snapUtils.ts:117-149 | the right-edge then left-edge checks against one neighbour update the best as the fold does |
| SnapUtils.SnapEdgesZ | frontend/src/components/editor/snapUtils.ts:151-182 | the front then back checks against one neighbour update the best as the fold does |
| SnapUtils.SnapCentres | frontend/src/components/editor/snapUtils.ts:184-212 | the centre-x then centre-z checks (half the distance, keeping the best's other axis) update the best as the fold does |
| SnapUtils.FixtureSnapKeepsHeight | frontend/src/components/editor/snapUtils.ts:109-221 | the fixture snap never changes y |
| SnapUtils.FixtureSnapFallsBackToGrid | frontend/src/components/editor/snapUtils.ts:216-222 | with no eligible proposal, x and z are grid-snapped, y is kept, and no id or edge is reported |
| SnapUtils.FixtureSnapWinner | frontend/src/components/editor/snapUtils.ts:119-212 | the first least-distance proposal, below its limit, wins; its neighbour's id and its edge are reported, and no wall |
| SnapUtils.FixtureSnapContact | frontend/src/components/editor/snapUtils.ts:124-212 | after a right snap the new maxX equals the neighbour's minX (and so on for each edge), moving only that axis; a centre snap lines up the centres |
| SnapUtils.WallCandidateOrigin | frontend/src/components/editor/snapUtils.ts:313-386 | every wall proposal comes from a wall in the list |
| SnapUtils.SnapToVerticalWall | frontend/src/components/editor/snapUtils.ts:316-350 | the right then left checks against one vertical wall, gated by z-span overlap, update the best as the fold does |
| SnapUtils.SnapToHorizontalWall | frontend/src/components/editor/snapUtils.ts:352-386 | the front then back checks against one horizontal wall, gated by x-span overlap, update the best as the fold does |
| SnapUtils.SnapToWalls | frontend/src/components/editor/snapUtils.ts:302-390 | the loop over walls returns the first-minimum fold over all wall proposals |
| SnapUtils.WallSnapNoFallback | frontend/src/components/editor/snapUtils.ts:310-389 | with no eligible wall proposal the position is returned unchanged, with no wall id or edge |
| SnapUtils.WallSnapKeepsHeight | frontend/src/components/editor/snapUtils.ts:302-390 | the wall snap never changes y |
| SnapUtils.WallSnapWinner | frontend/src/components/editor/snapUtils.ts:313-386 | the first least-distance wall proposal wins; the fixture ends flush with that wall, moved only across it, and its id and edge are reported |
| SnapUtils.TouchingIsNoCollision | frontend/src/components/editor/snapUtils.ts:267-270 | boxes that only share an edge do not overlap |
| SnapUtils.CollidesIgnoresSelf | frontend/src/components/editor/snapUtils.ts:261-262 | a collision against the whole list is a collision against the entries with another id |
| SnapUtils.CheckCollision | frontend/src/components/editor/snapUtils.ts:254-276 | true iff some fixture with another id overlaps strictly on both axes |
| SnapUtils.CheckWallCollision | frontend/src/components/editor/snapUtils.ts:279-299 | true iff some wall box overlaps strictly on both axes |
| SnapUtils.SnapToFixturesAndWalls | frontend/src/components/editor/snapUtils.ts:393-421 | the returned position never enters a wall unless it is the fixture's own position; the ids come from the two snaps |
| SnapUtils.WallSnapTakesPriority | frontend/src/components/editor/snapUtils.ts:407 | a reported wall snap that enters no wall is the position returned |
| SnapUtils.FixtureSnapUsedWithoutWall | frontend/src/components/editor/snapUtils.ts:407 | without a wall snap, the fixture snap is returned when it enters no wall |
| SnapUtils.WallPenetrationRollsBack | frontend/src/components/editor/snapUtils.ts:410-413 | a selected position inside a wall is replaced by exactly the fixture's position |
| SnapUtils.CombinedSnapKeepsHeight | frontend/src/components/editor/snapUtils.ts:393-421 | dragged at its own height, the fixture keeps that height |
| SnapUtils.WallEdgePreferred | frontend/src/components/editor/snapUtils.ts:419 | the reported edge is the wall's when it has one, else the fixture snap's |
| SnapUtils.PushIsShorterWay | frontend/src/components/editor/snapUtils.ts:440-464 | the push out of a wall has the smaller of the two face distances, plus the 0.01 margin |
| SnapUtils.ClampKeepsHeight | frontend/src/components/editor/snapUtils.ts:424-470 | the correction never changes y |
| SnapUtils.ClampIgnoresClearAndDiagonalWalls | frontend/src/components/editor/snapUtils.ts:432-467 | walls the box misses, and diagonal walls, cause no correction |
| SnapUtils.ClampClearsSingleWall | frontend/src/components/editor/snapUtils.ts:432-467 | against a single overlapping axis-aligned wall, the corrected box no longer overlaps it |
| SnapUtils.ClampToWallBounds | frontend/src/components/editor/snapUtils.ts:424-470 | the loop, judging overlap on the original box, returns the accumulated corrections |
| SceneStore.FixturesByZone | frontend/src/store/useSceneStore.ts:164-167 | exactly the fixtures of that zone, each taken from the list |
| SceneStore.FixturesByZoneConcat | frontend/src/store/useSceneStore.ts:164-167 | the filter works piecewise, so it preserves order |
| SceneStore.FixturesByZoneAllInZone | frontend/src/store/useSceneStore.ts:164-167 | a list entirely in the zone is returned whole |
| SceneStore.ZoneFixtures | frontend/src/store/useSceneStore.ts:168-173 | with no selected zone the whole list, otherwise only that zone's fixtures |
| SceneStore.FindIndex | frontend/src/store/useSceneStore.ts:174-184 | −1 iff no entry has the id; otherwise the first index holding it |
| SceneStore.AdjacentFixtures | frontend/src/store/useSceneStore.ts:174-184 | a previous fixture iff the index is above 0; a next one iff it is below the last index |
| SceneStore.AdjacentOfKnown | frontend/src/store/useSceneStore.ts:174-184 | the entries at k−1 and k+1 are the neighbours of the fixture at k, where they exist |
| SceneStore.AdjacentOfUnknown | frontend/src/store/useSceneStore.ts:174-184 | an unknown id has no previous fixture, and the first fixture (if any) as next |
| SceneStore.MergeLaws | frontend/src/store/useSceneStore.ts:156-161 | an empty update is the identity, the same update twice is the update once, and a sent field wins |
| SceneStore.UpdateFixtures | frontend/src/store/useSceneStore.ts:156-161 | same length; entries with the id are merged with the update and all others are unchanged |
| SceneStore.UpdateUnknownIsIdentity | frontend/src/store/useSceneStore.ts:156-161 | updating an absent id leaves the list unchanged |
| SceneStore.RemoveFixtures | frontend/src/store/useSceneStore.ts:154-155 | no entry with the id remains, and every other entry does |
| SceneStore.RemoveFixturesConcat | frontend/src/store/useSceneStore.ts:154-155 | removal works piecewise, so the others keep their order |
| SceneStore.RemoveAfterAdd | frontend/src/store/useSceneStore.ts:152-155 | adding a fixture with a fresh id and then removing that id restores the list |
| SceneStore.VmdStepInRange | frontend/src/store/useSceneStore.ts:129-147 | the index stays in range; 'prev' at the first and 'next' at the last stay put, and every other step moves by exactly one |
| SceneStore.SceneState.constructor | frontend/src/store/useSceneStore.ts:69-104 | store level, nothing selected, no zones, no fixtures, VMD off at index 0 |
| SceneStore.SceneState.SetNavigationLevel | frontend/src/store/useSceneStore.ts:72 | sets the level only |
| SceneStore.SceneState.SetSelectedZone | frontend/src/store/useSceneStore.ts:76 | sets the zone only |
| SceneStore.SceneState.EnterZoneView | frontend/src/store/useSceneStore.ts:77-84 | zone level with that zone, no fixture selected, VMD off; the index and lists kept |
| SceneStore.SceneState.ExitZoneView | frontend/src/store/useSceneStore.ts:85-92 | store level, no zone, no fixture, VMD off; the index and lists kept |
| SceneStore.SceneState.SetZones | frontend/src/store/useSceneStore.ts:96 | sets the zones only |
| SceneStore.SceneState.SetSelectedFixture | frontend/src/store/useSceneStore.ts:100 | sets the selection only |
| SceneStore.SceneState.EnterVMDMode | frontend/src/store/useSceneStore.ts:105-120 | an id in the zone-filtered list enters the fixture level with VMD on, its index and its selection; any other id changes nothing |
| SceneStore.SceneState.ExitVMDMode | frontend/src/store/useSceneStore.ts:121-128 | back to the zone if one is selected, else the store; VMD and selection cleared; the index kept |
| SceneStore.SceneState.NavigateVMD | frontend/src/store/useSceneStore.ts:129-147 | a step inside the zone list moves the index to the neighbour and selects it; otherwise nothing changes |
| SceneStore.SceneState.SetFixtures | frontend/src/store/useSceneStore.ts:151 | sets the fixtures only |
| SceneStore.SceneState.AddFixture | frontend/src/store/useSceneStore.ts:152-153 | appends at the end and changes nothing else |
| SceneStore.SceneState.RemoveFixture | frontend/src/store/useSceneStore.ts:154-155 | the list becomes the removal filter of the old list; nothing else changes |
| SceneStore.SceneState.UpdateFixture | frontend/src/store/useSceneStore.ts:156-161 | the list becomes the merge map of the old list; nothing else changes |
| SceneStore.SceneState.GetFixturesByZone | frontend/src/store/useSceneStore.ts:163-166 | every fixture of the zone in the current list, and only those |
| SceneStore.SceneState.GetZoneFixtures | frontend/src/store/useSceneStore.ts:167-172 | every fixture without a selected zone, else the selected zone's fixtures |
| SceneStore.SceneState.GetAdjacentFixtures | frontend/src/store/useSceneStore.ts:173-183 | the entries just before and after the fixture in the selected zone's list, where they exist |
| SceneStore.ZoneRoundTrip | frontend/src/store/useSceneStore.ts:77-128 | entering a zone, then one of its fixtures in the VMD view, then leaving, returns to that zone with the fixtures unchanged |
| UIStore.UIState.constructor | frontend/src/store/useUIStore.ts:23-34 | perspective view, both sidebars open, not loading |
| UIStore.UIState.SetViewMode | frontend/src/store/useUIStore.ts:24 | changes only the view mode |
| UIStore.UIState.ToggleLeftSidebar | frontend/src/store/useUIStore.ts:29 | flips only the left flag |
| UIStore.UIState.ToggleRightSidebar | frontend/src/store/useUIStore.ts:30 | flips only the right flag |
| UIStore.UIState.SetLoading | frontend/src/store/useUIStore.ts:34 | sets only the loading flag |
| UIStore.ToggleTwiceRestores | frontend/src/store/useUIStore.ts:29-30 | toggling each sidebar twice restores the whole state |
| Editor.StoreWalls | frontend/src/components/editor/TransformGizmo.tsx:300 | the loaded store's walls, or none without a store |
| TransformGizmo.ShownGizmo | frontend/src/components/editor/TransformGizmo.tsx:304-342 | a gizmo iff in edit mode: the move gizmo iff in move mode, the rotate gizmo iff in rotate mode |
| TransformGizmo.Nudged | frontend/src/components/editor/TransformGizmo.tsx:307-312 | only the dragged axis changes, by exactly `delta` |
| TransformGizmo.MoveTarget | frontend/src/components/editor/TransformGizmo.tsx:307-316 | the target keeps the fixture's height |
| TransformGizmo.MoveCallsOf | frontend/src/components/editor/TransformGizmo.tsx:306-329 | at most one call, a move of this fixture to the target |
| TransformGizmo.MoveCommitsIffClear | frontend/src/components/editor/TransformGizmo.tsx:301-328 | a move is committed iff its target enters no wall and no other fixture; the commit is one move of this fixture at its height |
| TransformGizmo.MoveWithoutWallIsRaw | frontend/src/components/editor/TransformGizmo.tsx:315-316 | with no eligible wall, the target is the raw nudged position |
| TransformGizmo.HandleMove | frontend/src/components/editor/TransformGizmo.tsx:306-329 | nudge, wall snap and the two early returns give exactly the calls of the move specification |
| TransformGizmo.HandleRotate | frontend/src/components/editor/TransformGizmo.tsx:331-333 | one rotate-to call for this fixture with the angle unchanged |
| TransformGizmo.AxisDragCallsAsWritten | frontend/src/components/editor/TransformGizmo.tsx:60-90 | one mouse move sends at most two moves of this fixture, one per axis, both from the captured position |
| TransformGizmo.NoWallKeepsNudge | frontend/src/components/editor/TransformGizmo.tsx:306-329 | alone in the store and with no walls, an axis move commits the raw nudged position |
| TransformGizmo.AxisDragUndoesFirstAxis | frontend/src/components/editor/TransformGizmo.tsx:78-82 | as written, an x-arrow drag at rotation 0 commits the x move and then the old position |
| TransformGizmo.AxisDragTarget | frontend/src/components/editor/TransformGizmo.tsx:306-317 | the corrected target for the whole delta keeps the fixture's height |
| TransformGizmo.AxisDragCalls | frontend/src/components/editor/TransformGizmo.tsx:60-90 | the corrected mouse move sends at most one move, to that target |
| TransformGizmo.AxisDragKeepsBothParts | frontend/src/components/editor/TransformGizmo.tsx:60-90 | with no walls or other fixtures the corrected move ends at the position moved by both parts; with a zero z part it is the x-axis move |
| TransformGizmo.RotateStart | frontend/src/components/editor/TransformGizmo.tsx:229-235 | with a pointer angle, the start angle plus the rotation is that angle; without one, nothing starts |
| TransformGizmo.RotateMove | frontend/src/components/editor/TransformGizmo.tsx:208-214 | nothing iff the pointer is off the floor plane; otherwise one rotate-to call with the pointer angle less the start angle |
| TransformGizmo.RotationFollowsPointer | frontend/src/components/editor/TransformGizmo.tsx:208-235 | turning the pointer by `turn` from the press point sets rotation + `turn`, so the press point keeps the rotation |
| TransformGizmo.RotateWithoutAngleIsIgnored | frontend/src/components/editor/TransformGizmo.tsx:209-210 | a pointer off the floor plane sends nothing |
| DraggableFixture.OffsetRoundTrip | frontend/src/components/editor/DraggableFixture.tsx:77-101 | the pointer-down point plus the recorded offset is the original position, y kept |
| DraggableFixture.DragMoveOf | frontend/src/components/editor/DraggableFixture.tsx:89-117 | at most one call, a move of this fixture |
| DraggableFixture.DragCommitIsClear | frontend/src/components/editor/DraggableFixture.tsx:89-117 | a drag step commits at most one move, of this fixture, at its height, to a position that enters no wall and no other fixture |
| DraggableFixture.DragMoveNeedsDrag | frontend/src/components/editor/DraggableFixture.tsx:90-95 | without this fixture being dragged, an offset and a floor point, pointer-move does nothing |
| DraggableFixture.HandleClick | frontend/src/components/editor/DraggableFixture.tsx:131-136 | selects iff no drag is in progress |
| DraggableFixture.DragHandler.constructor | frontend/src/components/editor/DraggableFixture.tsx:45 | no drag offset |
| DraggableFixture.DragHandler.PointerDown | frontend/src/components/editor/DraggableFixture.tsx:68-87 | nothing outside edit/move mode or when ghosted; otherwise select, and with a floor point record the offset and start dragging |
| DraggableFixture.DragHandler.PointerMove | frontend/src/components/editor/DraggableFixture.tsx:89-116 | exactly the calls of the drag-step specification for the current offset |
| DraggableFixture.DragHandler.PointerUp | frontend/src/components/editor/DraggableFixture.tsx:119-128 | while this fixture is dragged, clear the offset and stop dragging; otherwise nothing |
| DraggableFixture.PressAndHold | frontend/src/components/editor/DraggableFixture.tsx:68-116 | after a press, a move at the press point is the drag step from the original position |
| FixtureEditPanel.WithDimension | frontend/src/components/editor/FixtureEditPanel.tsx:91-94 | only the named key takes the new value |
| FixtureEditPanel.WithDimensionRestores | frontend/src/components/editor/FixtureEditPanel.tsx:91-94 | writing back a key's old value restores the dimensions |
| FixtureEditPanel.HandleDimensionChange | frontend/src/components/editor/FixtureEditPanel.tsx:88-97 | nothing without a fixture; otherwise one update of its dimensions with only that key changed |
| FixtureEditPanel.HandleStyleChange | frontend/src/components/editor/FixtureEditPanel.tsx:100-106 | nothing without a fixture; otherwise one style update for it |
| FixtureEditPanel.LoopCount | frontend/src/components/editor/FixtureEditPanel.tsx:116 | the number of passes of `for (i = 0; i < c; i++)`: the least whole number not below c |
| FixtureEditPanel.LoopBound | frontend/src/components/editor/FixtureEditPanel.tsx:116 | `i < c` holds exactly for the first LoopCount(c) values of i |
| FixtureEditPanel.LoopCountOfWhole | frontend/src/components/editor/FixtureEditPanel.tsx:116 | a whole count loops exactly that many times |
| FixtureEditPanel.EvenHeightsSnoc | frontend/src/components/editor/FixtureEditPanel.tsx:116-118 | one more pass appends the next evenly spaced height |
| FixtureEditPanel.EvenHeightsWithin | frontend/src/components/editor/FixtureEditPanel.tsx:114-118 | with positive spacing the heights are strictly increasing and lie strictly between the base and the height less 0.1 |
| FixtureEditPanel.EvenlySpacedHeights | frontend/src/components/editor/FixtureEditPanel.tsx:113-118 | the push loop yields base + spacing·(i+1) for each pass |
| FixtureEditPanel.ClampAsWritten | frontend/src/components/editor/FixtureEditPanel.tsx:112 | clamped to [1, 10], and unchanged inside it |
| FixtureEditPanel.FractionalCountMismatch | frontend/src/components/editor/FixtureEditPanel.tsx:112-122 | as written, a count of 2.5 stores shelfCount 2.5 with 3 heights |
| FixtureEditPanel.ClampShelfCount | frontend/src/components/editor/FixtureEditPanel.tsx:112 | the corrected clamp of the shelf-count finding, which the source does not round down: a whole number in [1, 10], 1 at or below 1, 10 at or above 10, otherwise the count rounded down |
| FixtureEditPanel.ShelfCountStructureAsWritten | frontend/src/components/editor/FixtureEditPanel.tsx:111-122 | as written, the count is the clamped typed value and there are at least that many heights but fewer than one more; the base is kept |
| FixtureEditPanel.ShelfCountStructure | frontend/src/components/editor/FixtureEditPanel.tsx:111-122 | the corrected structure: one height per shelf, base kept |
| FixtureEditPanel.WholeCountsAgree | frontend/src/components/editor/FixtureEditPanel.tsx:111-122 | for a whole typed count the code as written and the corrected structure agree |
| FixtureEditPanel.ShelfCountConsistent | frontend/src/components/editor/FixtureEditPanel.tsx:109-125 | in the corrected structure shelfCount equals the number of heights, lies in [1, 10], equals a whole in-range count, keeps the base, and has increasing heights within bounds |
| FixtureEditPanel.HandleShelfCountChange | frontend/src/components/editor/FixtureEditPanel.tsx:109-125 | nothing without a fixture; otherwise one structure update as the source writes it: the count clamped to [1, 10] but not rounded, and one evenly spaced height per loop pass |
| FixtureEditPanel.HandleBaseHeightChange | frontend/src/components/editor/FixtureEditPanel.tsx:128-137 | nothing without a fixture; otherwise one structure update changing only the base height |
| FixtureEditPanel.HandleShelfHeightChange | frontend/src/components/editor/FixtureEditPanel.tsx:140-151 | nothing without a fixture; otherwise one structure update with the same number of heights, that index replaced and the rest kept |
| FixtureEditPanel.HandleRotate | frontend/src/components/editor/FixtureEditPanel.tsx:154-160 | nothing without a fixture; otherwise one relative rotate of ±90 for it |
| FixtureEditPanel.HandleDelete | frontend/src/components/editor/FixtureEditPanel.tsx:163-169 | only with a fixture and a confirmation: remove it, then clear the selection |
| FixtureRenderer.DefaultStyle | frontend/src/components/3d/fixtures/FixtureRenderer.tsx:20-32 | chilled iff refrigerator, frozen iff freezer, open iff island or promotional, standard otherwise |
| FixtureRenderer.EffectiveStyle | frontend/src/components/3d/fixtures/FixtureRenderer.tsx:44 | a stored style overrides the type's default |
| FixtureRenderer.FindCategory | frontend/src/components/3d/fixtures/FixtureRenderer.tsx:52 | none iff no category has the id; otherwise the first one that does |
| FixtureRenderer.CategoryColor | frontend/src/components/3d/fixtures/FixtureRenderer.tsx:50-54 | no colour without a non-empty id or a store, and a colour reported is never empty |
| FixtureRenderer.CategoryColorFound | frontend/src/components/3d/fixtures/FixtureRenderer.tsx:50-54 | no colour without an id or a store; a colour reported is non-empty and belongs to the first category with that id |
| FixtureRenderer.CategoryColorOfFirst | frontend/src/components/3d/fixtures/FixtureRenderer.tsx:50-54 | with a non-empty id and a store, the colour is exactly the first matching category's colour, or none when that colour is empty |
| FixtureRenderer.CategoryColorMissing | frontend/src/components/3d/fixtures/FixtureRenderer.tsx:50-54 | an id no category has gives no colour |
| FixtureRenderer.ShelfColor | frontend/src/components/3d/fixtures/FixtureRenderer.tsx:61 | the category colour when there is one, else #e5e5e5 |
| FixtureRenderer.Opacity | frontend/src/components/3d/fixtures/FixtureRenderer.tsx:62 | 0.3 when ghosted, 1 iff not ghosted, and always in (0, 1] |
| FixtureRenderer.FrameColor | frontend/src/components/3d/fixtures/FixtureRenderer.tsx:57-59 | a hex colour: the frame colour of the stored style, or of the type's default style when none is stored |
| FixtureRenderer.GlassFollowsType | frontend/src/components/3d/fixtures/FixtureRenderer.tsx:20-65 | without a stored style, glass is drawn iff the fixture is a refrigerator or a freezer |
| Minimap.MapDimensions | frontend/src/components/ui/Minimap.tsx:26-33 | a wide store gets the full width, any other the full height; the map has the store's proportions |
| Minimap.MapFitsSize | frontend/src/components/ui/Minimap.tsx:26-33 | one side is exactly `size` and neither exceeds it |
| Minimap.ToMapCoordLinear | frontend/src/components/ui/Minimap.tsx:39-42 | (0, 0) goes to (0, 0), the far corner to the map's, and offsets add |
| Minimap.IsShown | frontend/src/components/ui/Minimap.tsx:36 | hidden at the store and zone levels, shown only at the fixture level |
| Minimap.ToMapCoord | frontend/src/components/ui/Minimap.tsx:39-42 | a point on the store floor lands on the map |
| Minimap.FixtureExtent | frontend/src/components/ui/Minimap.tsx:112-114 | the footprint is the mapped width and depth, swapped at exactly 90 and 270 and at no other angle |
| Minimap.DrawnSide | frontend/src/components/ui/Minimap.tsx:121-122 | at least 2 and at least the side, and one of the two |
| Minimap.FixtureRect | frontend/src/components/ui/Minimap.tsx:108-122 | the corner is the map position less half the unraised extent; each side is the extent raised to at least 2 |
| Minimap.FixtureRectCentredIffLarge | frontend/src/components/ui/Minimap.tsx:116-122 | the rectangle is centred on the fixture along a side iff that side's extent is at least 2 |
| CameraController.VmdCamera | frontend/src/components/3d/CameraController.tsx:38-53 | looks at (x, height/2, z) from depth/2 + 3 in front of it |
| CameraController.FindZone | frontend/src/components/3d/CameraController.tsx:56 | none iff no zone has the id; otherwise the first zone in list order with it |
| CameraController.ZoneCamera | frontend/src/components/3d/CameraController.tsx:57-79 | a zone always gets a camera move; where it goes is stated by ZoneCameraPlacement |
| CameraController.ZoneCameraPlacement | frontend/src/components/3d/CameraController.tsx:57-79 | looks at the zone's centre on the floor from a height of max(8, 1.2 × its larger side), set back from the centre along z by 0.3 × that side (behind it for a well-formed zone) |
| CameraController.StoreCamera | frontend/src/components/3d/CameraController.tsx:80-111 | front view sends nothing; otherwise the camera looks at the target on the floor, from 30 m straight above it in the top view and from (20, 20, 20) in perspective |
| CameraController.CameraTarget | frontend/src/components/3d/CameraController.tsx:25-111 | the fixture level outside the VMD view and the zone level without a selected zone send nothing; the store level uses the store camera |
| CameraController.StoreTarget | frontend/src/components/3d/CameraController.tsx:80-111 | at the store level, whatever the VMD flag: top view to (x, 30, z) of the target, perspective to (20, 20, 20), front view no motion |
| CameraController.VmdTarget | frontend/src/components/3d/CameraController.tsx:30-53 | in the VMD view the camera goes to the zone fixture at the index, and stays put when the index is out of range |
| CameraController.CameraFollowsVmdEntry | frontend/src/components/3d/CameraController.tsx:30-53 | once a zone fixture is entered, the camera is sent to that fixture |
| CameraController.ZoneTarget | frontend/src/components/3d/CameraController.tsx:54-79 | no motion without a selected zone or when it is not found; a zone camera is at least 8 m up |
| CameraController.Limits | frontend/src/components/3d/CameraController.tsx:125-139 | every zoom and polar range is non-empty |
| CameraController.LimitsWellFormed | frontend/src/components/3d/CameraController.tsx:125-139 | zoom ranges [2,10], [3,30] and [5,100] by level; rotation off in the fixture level and the store's top view; pan off only in the fixture level |
| StoreSelector.ErrorMessage | frontend/src/components/ui/StoreSelector.tsx:48-54 | every rejection has a message |
| StoreSelector.Validate | frontend/src/components/ui/StoreSelector.tsx:47-55 | accepted iff id and name, both floor extents and the fixtures array are present; the id/name error iff that check fails, the floor-plan error iff it alone passes, the fixtures error iff only the array check fails |
| StoreSelector.ListItem | frontend/src/components/ui/StoreSelector.tsx:86-93 | the list item carries the store's id, name and fixture count |
| StoreSelector.StoreList | frontend/src/components/ui/StoreSelector.tsx:85 | one item per registry entry, in order |
| StoreSelector.GetStoreById | frontend/src/components/ui/StoreSelector.tsx:27 | none iff no registry key is the id; otherwise the store under that key |
| StoreSelector.FindUploaded | frontend/src/components/ui/StoreSelector.tsx:19 | none iff no uploaded store has the id; otherwise the first in upload order that does |
| StoreSelector.SelectCalls | frontend/src/components/ui/StoreSelector.tsx:17-32 | nothing iff neither an upload nor a registry key has the id; otherwise a load followed by the selection of that id |
| StoreSelector.SelectPrefersUpload | frontend/src/components/ui/StoreSelector.tsx:17-32 | an uploaded store wins over the registry entry with its id; an unknown id does nothing |
| StoreSelector.ExistingIds | frontend/src/components/ui/StoreSelector.tsx:58 | the registry ids followed by the uploaded ids |
| StoreSelector.ReplaceById | frontend/src/components/ui/StoreSelector.tsx:61-63 | same length, entries with the id replaced, the rest kept |
| StoreSelector.Upserted | frontend/src/components/ui/StoreSelector.tsx:57-66 | the list grows by at most one, and uploads with another id keep their place |
| StoreSelector.UpsertCases | frontend/src/components/ui/StoreSelector.tsx:57-66 | a known id replaces the same-id uploads (so a built-in id is not added); a new id is appended |
| StoreSelector.FindAppended | frontend/src/components/ui/StoreSelector.tsx:65 | after appending, selecting the id finds the new store |
| StoreSelector.FindReplaced | frontend/src/components/ui/StoreSelector.tsx:61-63 | after replacing, selecting the id finds the new store |
| StoreSelector.Selector.constructor | frontend/src/components/ui/StoreSelector.tsx:13-14 | no uploaded stores and no error |
| StoreSelector.Selector.AllStores | frontend/src/components/ui/StoreSelector.tsx:84-94 | the registry list followed by one item per uploaded store, with its fixture count |
| StoreSelector.Selector.HandleSelect | frontend/src/components/ui/StoreSelector.tsx:17-32 | exactly the calls of the selection specification |
| StoreSelector.Selector.HandleFileUpload | frontend/src/components/ui/StoreSelector.tsx:34-81 | no file: nothing; unparsable or invalid: the error is set and nothing loads; valid: error cleared, list upserted, store loaded and selected |
| StoreTypes.DefaultCameraConfig | frontend/src/types/store.ts:172-177 | zone heights positive and ordered, the store height above them |
| StoreTypes.DefaultGondolaStructure | frontend/src/types/store.ts:180-184 | 5 shelves with 5 increasing heights above the base |
| StoreTypes.DefaultFixtureDimensions | frontend/src/types/store.ts:187-196 | every type has positive dimensions |
| StoreTypes.DefaultStyleStructure | frontend/src/types/store.ts:199-220 | every style's structure has as many heights as shelves, increasing and not below the base; frozen's first shelf is its base, 0.3 |
| StoreTypes.FixtureStyleColors | frontend/src/types/store.ts:223-244 | every style has three #rrggbb colours |
| StoreTypes.FixtureStyleLabel | frontend/src/types/store.ts:247-252 | every style has a label |
| StoreTypes.StyleLabelsDistinct | frontend/src/types/store.ts:247-252 | different styles have different labels |
| StoresService.Lookup | backend/src/stores/stores.service.ts:14-16 | nothing iff no row has the id; otherwise that row |
| StoresService.SavedRow | backend/src/stores/stores.service.ts:18-35 | the sent grid and the new time; the sent configuration when present, else the found row's; a found row keeps its id and creation time, a new one is created now under the id |
| StoresService.Saved | backend/src/stores/stores.service.ts:18-35 | the ids are the old ones plus the saved one, and other rows are unchanged |
| StoresService.SaveSemantics | backend/src/stores/stores.service.ts:18-35 | after a save the row has the sent grid and the new time; the configuration is the sent one, else the old row's, else none; the creation time is kept; other ids are unchanged |
| StoresService.SaveIdempotent | backend/src/stores/stores.service.ts:18-35 | saving the same body twice equals saving it once |
| StoresService.DeleteSemantics | backend/src/stores/stores.service.ts:37-39 | the row is gone, others stay, and deleting a missing id changes nothing |
| StoresService.Service.constructor | backend/src/stores/stores.service.ts:9-12 | an empty table |
| StoresService.Service.GetLayout | backend/src/stores/stores.service.ts:14-16 | nothing iff no row has the id; otherwise that row |
| StoresService.Service.SaveLayout | backend/src/stores/stores.service.ts:18-35 | the table becomes the save of the old table, and the saved row is returned |
| StoresService.Service.DeleteLayout | backend/src/stores/stores.service.ts:37-39 | the table loses that id and nothing else |
| StoresController.GetResponse | backend/src/stores/stores.controller.ts:9-21 | NotFound with the id in its message iff there is no row; otherwise exactly the row's four fields |
| StoresController.GetLayout | backend/src/stores/stores.controller.ts:9-21 | the GET response for the row under the path id |
| StoresController.SaveLayout | backend/src/stores/stores.controller.ts:23-35 | saves, and answers with the saved row for the path id: the sent grid and the new time |
| StoresController.DeleteLayout | backend/src/stores/stores.controller.ts:37-41 | deletes, and answers 204 with no body either way |
| StoresController.GetAfterPut | backend/src/stores/stores.controller.ts:9-35 | a GET after a PUT returns the sent grid under that id; other ids answer as before |
| StoresController.GetAfterDelete | backend/src/stores/stores.controller.ts:9-41 | a GET after a DELETE is NotFound |
| StoresController.PutAnswersLikeGet | backend/src/stores/stores.controller.ts:15-34 | the PUT answer is what a GET right after it answers |

## Left out

- Drawing: meshes, materials, SVG markup, colours passed to three.js, and the gizmo's local-axis projection (trigonometry).
- three.js and gsap: raycasting, pointer capture and `window` listeners are left out. The floor point and the pointer angle are inputs (`Option`, absent when the ray misses). The camera tween is left out; only its end point and look-at point are modelled.
- `Math.cos`, `Math.sin` and `Math.atan2` are parameters. Floating point is not modelled: all arithmetic is exact over `real`.
- The store members the editing components call but `useSceneStore.ts` does not define have no effect in this model. These are `moveFixture`, `rotateFixtureTo`, `rotateFixture`, `startDragging`, `stopDragging`, the `updateFixture*` variants, `loadStore`, `currentStore`, `editMode`, `transformMode` and `getStoreDimensions`. The handlers return them as `EditorCall` values, and these members' state is an input (`EditorView`).
- `FileReader`, `JSON.parse`, `confirm()` and `parseFloat` are foreign. Their results are inputs. The upload's load and validation happen in one step; the asynchronous gap between them is not modelled.
- StoreSelector.Upload: a JSON field that is missing, `null` or empty is represented by one falsy value. A JSON document that is `null` throws in the source; here it is an unparsable file.
- StoreSelector.Selector.HandleFileUpload: `existingIds` reads the rendered `uploadedStores`, while the update function receives `prev`. The model applies both to the same list.
- StoreSelector.SelectCalls: `onStoreSelect` is optional in the source. The model always reports the selection call.
- The registry in `data/stores/index.ts` is a parameter, a sequence of key/store entries.
- Minimap.MapDimensions: requires positive floor extents. With a zero extent the source divides by zero and draws with `Infinity` or `NaN`.
- Minimap.ToMapCoord: requires a non-zero store width and depth, for the same reason.
- Minimap.FixtureExtent: requires a non-zero store width and depth, for the same reason.
- Minimap.FixtureRect: requires a non-zero store width and depth, for the same reason.
- CameraController.CameraTarget: `vmdFixtureIndex` is an `int`, and `zoneFixtures[i]` outside the list is `undefined` (no motion). The early return while no orbit controls are mounted is not modelled.
- FixtureEditPanel.ClampShelfCount: the corrected clamp of the shelf-count finding. It rounds the count down, which the source's line 112 does not; the handler as written uses `ClampAsWritten`.
- SceneStore.Merge: a patch field is either absent or a value. A JavaScript patch that holds a field explicitly set to `undefined` overwrites that field with `undefined`; such a patch cannot be written here.
- SnapUtils.ClampClearsSingleWall: proved for one wall only. With several walls a later push can move the box into an earlier wall, and the source does not promise otherwise.
- Back-end wiring: the Nest module, TypeORM and the MySQL connection. The table is a `map` keyed by store id. Creation and update timestamps are a `now` parameter.
- Concurrency and React's re-rendering: each handler runs atomically on the state it reads.

## Findings

| source | as written | input that shows it | evidently intended | confidence | as-written member | corrected member |
|---|---|---|---|---|---|---|
| frontend/src/components/editor/FixtureEditPanel.tsx:112-122 | the count is clamped to [1, 10] but not rounded, and the push loop runs while `i < validCount` | a count of 2.5 typed into the shelf-count field gives shelfCount 2.5 and 3 heights | a whole shelf count equal to the number of heights | not executed | FixtureEditPanel.FractionalCountMismatch | FixtureEditPanel.ShelfCountConsistent |
| frontend/src/components/editor/TransformGizmo.tsx:78-87 | one mouse move calls `onDrag` twice, once per world axis; each `handleMove` starts from the `fixture.position` captured at the last render and commits the whole position | dragging the x arrow of an unrotated fixture with no walls nearby: the x move is committed, then the z move of 0 commits the old position | one move by the whole world delta | not executed | TransformGizmo.AxisDragUndoesFirstAxis | TransformGizmo.AxisDragKeepsBothParts |
