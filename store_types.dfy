/**
 * The planogram data model and its default constant tables.
 * Coordinates are metres in a Y-up frame: X runs east-west, Y is height, Z runs north-south.
 */
module StoreTypes {
  import opened Wrappers

  datatype Point2D = Point2D(x: real, z: real)

  datatype Point3D = Point3D(x: real, y: real, z: real)

  datatype Dimensions3D = Dimensions3D(width: real, height: real, depth: real)

  /** A wall segment; `thickness` may be missing from loaded data. */
  datatype Wall = Wall(id: string, start: Point2D, end: Point2D, height: real, thickness: Option<real>)

  datatype Column = Column(id: string, position: Point2D, width: real, depth: real, height: real)

  datatype FixtureType =
    | Gondola | WallShelf | Endcap | Island | Refrigerator | Freezer | Checkout | Promotional

  datatype FixtureStyle = Standard | Open | Chilled | Frozen

  /** `shelfCount` is a JavaScript number: nothing forces it to be an integer. */
  datatype FixtureStructure = FixtureStructure(shelfCount: real, shelfHeights: seq<real>, baseHeight: real)

  /** A fixture as the editor sees it; `rotation` is in degrees, `style` may be absent. */
  datatype Fixture = Fixture(
    id: string,
    name: string,
    position: Point3D,
    rotation: real,
    dimensions: Dimensions3D,
    kind: FixtureType,
    style: Option<FixtureStyle>,
    structure: FixtureStructure,
    categoryId: Option<string>)

  datatype ProductCategory = ProductCategory(
    id: string, name: string, color: string, isRefrigerated: bool, parentId: Option<string>)

  datatype FloorPlan = FloorPlan(imageUrl: string, widthMeters: real, depthMeters: real)

  datatype CameraConfig = CameraConfig(
    storeViewHeight: real, zoneViewMinHeight: real, zoneViewMaxHeight: real, fixtureViewDistance: real)

  datatype StoreMeta = StoreMeta(
    id: string, name: string, address: Option<string>, thumbnail: Option<string>,
    createdAt: string, updatedAt: string)

  datatype Store = Store(
    meta: StoreMeta,
    floorPlan: FloorPlan,
    walls: seq<Wall>,
    columns: seq<Column>,
    fixtures: seq<Fixture>,
    productCategories: seq<ProductCategory>,
    cameraConfig: CameraConfig)

  datatype StoreListItem = StoreListItem(
    id: string, name: string, address: Option<string>, thumbnail: Option<string>,
    fixtureCount: nat, updatedAt: string)

  datatype StyleColors = StyleColors(frame: string, shelf: string, accent: string)

  // ---------------------------------------------------------------------------
  // Default tables

  function DefaultCameraConfig(): (c: CameraConfig)
    ensures 0.0 < c.zoneViewMinHeight <= c.zoneViewMaxHeight
    ensures c.storeViewHeight > c.zoneViewMaxHeight && c.fixtureViewDistance > 0.0
  {
    CameraConfig(25.0, 8.0, 15.0, 3.0)
  }

  function DefaultGondolaStructure(): (s: FixtureStructure)
    ensures s.shelfCount == 5.0 && |s.shelfHeights| == 5
    ensures WellFormedStructure(s)
  {
    FixtureStructure(5.0, [0.3, 0.6, 0.9, 1.2, 1.5], 0.15)
  }

  /** Default dimensions per fixture type: the table is total over the enumeration. */
  function DefaultFixtureDimensions(t: FixtureType): (d: Dimensions3D)
    ensures d.width > 0.0 && d.height > 0.0 && d.depth > 0.0
  {
    match t
    case Gondola => Dimensions3D(1.2, 1.8, 0.9)
    case WallShelf => Dimensions3D(1.2, 2.0, 0.5)
    case Endcap => Dimensions3D(1.2, 1.8, 0.6)
    case Island => Dimensions3D(1.5, 1.0, 1.5)
    case Refrigerator => Dimensions3D(1.5, 2.0, 0.8)
    case Freezer => Dimensions3D(2.0, 1.0, 1.2)
    case Checkout => Dimensions3D(1.0, 1.0, 0.6)
    case Promotional => Dimensions3D(1.2, 1.2, 0.6)
  }

  /**
   * A shelf structure is well formed when it lists exactly `shelfCount` heights,
   * in strictly increasing order, none below the base.
   */
  ghost predicate WellFormedStructure(s: FixtureStructure) {
    && |s.shelfHeights| as real == s.shelfCount
    && (forall i, j :: 0 <= i < j < |s.shelfHeights| ==> s.shelfHeights[i] < s.shelfHeights[j])
    && (forall i :: 0 <= i < |s.shelfHeights| ==> s.baseHeight <= s.shelfHeights[i])
  }

  function DefaultStyleStructure(style: FixtureStyle): (s: FixtureStructure)
    ensures WellFormedStructure(s)
    ensures style == Frozen ==> |s.shelfHeights| > 0 && s.shelfHeights[0] == s.baseHeight == 0.3
  {
    match style
    case Standard => FixtureStructure(5.0, [0.3, 0.6, 0.9, 1.2, 1.5], 0.15)
    case Open => FixtureStructure(2.0, [0.4, 0.7], 0.1)
    case Chilled => FixtureStructure(4.0, [0.4, 0.8, 1.2, 1.6], 0.2)
    case Frozen => FixtureStructure(3.0, [0.3, 0.6, 0.9], 0.3)
  }

  predicate IsHexDigit(ch: char) {
    '0' <= ch <= '9' || 'a' <= ch <= 'f' || 'A' <= ch <= 'F'
  }

  /** A CSS colour of the form `#rrggbb`: a hash followed by six hexadecimal digits. */
  predicate IsHexColour(s: string) {
    |s| == 7 && s[0] == '#' && forall i :: 1 <= i < 7 ==> IsHexDigit(s[i])
  }

  /** Colours per style: total over the enumeration, every entry a `#rrggbb` colour. */
  function FixtureStyleColors(style: FixtureStyle): (c: StyleColors)
    ensures IsHexColour(c.frame) && IsHexColour(c.shelf) && IsHexColour(c.accent)
  {
    match style
    case Standard => StyleColors("#8B7355", "#f5f5f5", "#a3a3a3")
    case Open => StyleColors("#696969", "#d4d4d4", "#525252")
    case Chilled => StyleColors("#60a5fa", "#dbeafe", "#3b82f6")
    case Frozen => StyleColors("#93c5fd", "#e0f2fe", "#2563eb")
  }

  /** Display labels per style: total, and distinct styles get distinct labels. */
  function FixtureStyleLabel(style: FixtureStyle): (text: string)
    ensures text != ""
  {
    match style
    case Standard => "일반 매대"
    case Open => "오픈형 매대"
    case Chilled => "냉장 매대"
    case Frozen => "냉동 매대"
  }

  lemma StyleLabelsDistinct(a: FixtureStyle, b: FixtureStyle)
    requires a != b
    ensures FixtureStyleLabel(a) != FixtureStyleLabel(b)
  {
  }
}
