/**
 * The editor-side members of the scene store that the editor components call:
 * the edit and transform modes they read, and the mutators they invoke.
 * Only the calls are modelled, as values; what each mutator does to the store is
 * not part of this model, so no effect is attached to it.
 */
module Editor {
  import opened Wrappers
  import opened StoreTypes

  /** `editMode`: 'view' or 'edit'. */
  datatype EditMode = View | Edit

  /** `transformMode`: 'move' or 'rotate'. */
  datatype TransformMode = Move | Rotate

  /** One call from a component into the store or into its parent's callbacks. */
  datatype EditorCall =
    | MoveFixture(fixtureId: string, position: Point3D)
    | RotateFixtureTo(fixtureId: string, angle: real)
    | RotateFixture(fixtureId: string, degrees: int)
    | StartDragging(fixtureId: string)
    | StopDragging
    | UpdateFixtureDimensions(fixtureId: string, dimensions: Dimensions3D)
    | UpdateFixtureStyle(fixtureId: string, style: FixtureStyle)
    | UpdateFixtureStructure(fixtureId: string, structure: FixtureStructure)
    | RemoveFixture(fixtureId: string)
    | SetSelectedFixture(selection: Option<string>)
    | LoadStore(store: Store)
    | StoreSelected(storeId: string)
    /** The parent's `onSelect` callback. */
    | SelectFixture

  /** The store members an editor component reads. */
  datatype EditorView = EditorView(
    editMode: EditMode,
    transformMode: TransformMode,
    isDragging: bool,
    draggedFixtureId: Option<string>,
    fixtures: seq<Fixture>,
    currentStore: Option<Store>)

  /** The loaded store's walls, or no walls when no store is loaded. */
  function StoreWalls(currentStore: Option<Store>): (walls: seq<Wall>)
    ensures currentStore.None? ==> walls == []
    ensures currentStore.Some? ==> walls == currentStore.value.walls
  {
    if currentStore.Some? then currentStore.value.walls else []
  }
}
