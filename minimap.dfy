/**
 * The minimap's geometry: a map whose longer side is `size` pixels and whose shape follows
 * the store's, a linear store-to-map coordinate change, and per-fixture rectangles.
 */
module Minimap {
  import opened StoreTypes
  import SceneStore

  /** `getStoreDimensions()`, a store member not part of this model: the floor's extent in metres. */
  datatype StoreDimensions = StoreDimensions(width: real, depth: real)

  datatype MapSize = MapSize(width: real, height: real)

  datatype MapPoint = MapPoint(x: real, y: real)

  const DEFAULT_SIZE: real := 200.0

  /** The minimap is drawn only at the fixture (VMD) level. */
  function IsShown(level: SceneStore.NavigationLevel): (shown: bool)
    ensures !shown <==> level == SceneStore.StoreLevel || level == SceneStore.ZoneLevel
  {
    level == SceneStore.FixtureLevel
  }

  /**
   * `mapDimensions`: a wide store (ratio above 1) gets the full width and a reduced height,
   * any other store the full height and a reduced width; either way the map has the
   * store's proportions.
   */
  function MapDimensions(store: StoreDimensions, size: real): (m: MapSize)
    requires store.width > 0.0 && store.depth > 0.0
    ensures store.width > store.depth ==> m.width == size && m.height * store.width == size * store.depth
    ensures store.width <= store.depth ==> m.height == size && m.width * store.depth == size * store.width
    ensures m.width * store.depth == m.height * store.width
  {
    var ratio := store.width / store.depth;
    RatioScales(size, store.width, store.depth);
    if ratio > 1.0 then MapSize(size, size / ratio) else MapSize(size * ratio, size)
  }

  /** The ratio of two positive extents, and what dividing or multiplying a size by it gives. */
  lemma RatioScales(size: real, w: real, d: real)
    requires w > 0.0 && d > 0.0
    ensures var r := w / d;
      && r * d == w
      && (r > 1.0 <==> w > d)
      && (size / r) * w == size * d
      && (size * r) * d == size * w
  {
    var r := w / d;
    assert r * d == w;
    assert r > 0.0;
    var q := size / r;
    assert q * r == size;
    calc {
      q * w;
      q * (r * d);
      (q * r) * d;
      size * d;
    }
    assert (size * r) * d == size * (r * d);
    if r > 1.0 {
      LessTimes(d, 1.0, r);
    } else {
      LessEqTimes(d, r, 1.0);
    }
  }

  /** The longer side of the map is `size`, and with a positive size neither side exceeds it. */
  lemma MapFitsSize(store: StoreDimensions, size: real)
    requires store.width > 0.0 && store.depth > 0.0 && size > 0.0
    ensures var m := MapDimensions(store, size);
      && (m.width == size || m.height == size)
      && 0.0 < m.width <= size && 0.0 < m.height <= size
  {
    var m := MapDimensions(store, size);
    if store.width > store.depth {
      ShrinkToFit(m.height, size, store.depth, store.width);
    } else {
      ShrinkToFitLe(m.width, size, store.width, store.depth);
    }
  }

  /** A side `h` with `h · long == size · short` for `0 < short < long` lies strictly inside (0, size). */
  lemma ShrinkToFit(h: real, size: real, short: real, long: real)
    requires 0.0 < short < long && size > 0.0 && h * long == size * short
    ensures 0.0 < h < size
  {
    LessTimes(size, short, long);
    assert h * long < size * long;
    CancelPositive(h, size, long);
    MulPositive(size, short);
    PositiveQuotient(h, size * short, long);
  }

  /** A side `h` with `h · long == size · short` for `0 < short <= long` lies in (0, size]. */
  lemma ShrinkToFitLe(h: real, size: real, short: real, long: real)
    requires 0.0 < short <= long && size > 0.0 && h * long == size * short
    ensures 0.0 < h <= size
  {
    LessEqTimes(size, short, long);
    assert h * long <= size * long;
    CancelPositiveLe(h, size, long);
    MulPositive(size, short);
    PositiveQuotient(h, size * short, long);
  }

  lemma MulPositive(a: real, b: real)
    requires a > 0.0 && b > 0.0
    ensures a * b > 0.0
  {
  }

  lemma MulNonNegative(a: real, b: real)
    requires a >= 0.0 && b >= 0.0
    ensures a * b >= 0.0
  {
  }

  lemma LessTimes(s: real, a: real, b: real)
    requires s > 0.0 && a < b
    ensures s * a < s * b
  {
  }

  lemma LessEqTimes(s: real, a: real, b: real)
    requires s >= 0.0 && a <= b
    ensures s * a <= s * b
  {
  }

  lemma CancelPositive(x: real, y: real, c: real)
    requires c > 0.0 && x * c < y * c
    ensures x < y
  {
  }

  lemma CancelPositiveLe(x: real, y: real, c: real)
    requires c > 0.0 && x * c <= y * c
    ensures x <= y
  {
  }

  lemma PositiveQuotient(x: real, p: real, c: real)
    requires c > 0.0 && p > 0.0 && x * c == p
    ensures x > 0.0
  {
  }

  /** `toMapCoord`: store metres to map pixels, x to x and z to y. */
  function ToMapCoord(store: StoreDimensions, m: MapSize, x: real, z: real): (p: MapPoint)
    requires store.width != 0.0 && store.depth != 0.0
    ensures store.width > 0.0 && 0.0 <= x <= store.width && m.width >= 0.0 ==> 0.0 <= p.x <= m.width
    ensures store.depth > 0.0 && 0.0 <= z <= store.depth && m.height >= 0.0 ==> 0.0 <= p.y <= m.height
  {
    MapPoint(Scaled(x, store.width, m.width), Scaled(z, store.depth, m.height))
  }

  /** A coordinate along a floor extent, scaled to a side of the map: [0, extent] lands in [0, side]. */
  function Scaled(v: real, extent: real, side: real): (r: real)
    requires extent != 0.0
    ensures extent > 0.0 && 0.0 <= v <= extent && side >= 0.0 ==> 0.0 <= r <= side
  {
    var q := v / extent;
    assert q * extent == v;
    if extent > 0.0 && 0.0 <= v <= extent && side >= 0.0 then
      assert q >= 0.0;
      CancelPositiveLe(q, 1.0, extent);
      MulNonNegative(q, side);
      LessEqTimes(side, q, 1.0);
      q * side
    else
      q * side
  }

  /**
   * The coordinate change is linear: the store's origin and far corner land on the map's,
   * and it preserves sums of offsets.
   */
  lemma ToMapCoordLinear(store: StoreDimensions, m: MapSize, x1: real, z1: real, x2: real, z2: real)
    requires store.width != 0.0 && store.depth != 0.0
    ensures ToMapCoord(store, m, 0.0, 0.0) == MapPoint(0.0, 0.0)
    ensures ToMapCoord(store, m, store.width, store.depth) == MapPoint(m.width, m.height)
    ensures var p1 := ToMapCoord(store, m, x1, z1);
      var p2 := ToMapCoord(store, m, x2, z2);
      ToMapCoord(store, m, x1 + x2, z1 + z2) == MapPoint(p1.x + p2.x, p1.y + p2.y)
  {
    ScaledAdds(x1, x2, store.width, m.width);
    ScaledAdds(z1, z2, store.depth, m.height);
    ScaledWhole(store.width, m.width);
    ScaledWhole(store.depth, m.height);
  }

  /** Scaling distributes over a sum of coordinates. */
  lemma ScaledAdds(v1: real, v2: real, extent: real, side: real)
    requires extent != 0.0
    ensures Scaled(v1 + v2, extent, side) == Scaled(v1, extent, side) + Scaled(v2, extent, side)
  {
    var q1 := v1 / extent;
    var q2 := v2 / extent;
    var q := (v1 + v2) / extent;
    assert q1 * extent == v1 && q2 * extent == v2 && q * extent == v1 + v2;
    assert (q1 + q2) * extent == q1 * extent + q2 * extent;
    CancelNonZero(q, q1 + q2, extent);
    assert (q1 + q2) * side == q1 * side + q2 * side;
  }

  /** The whole extent scales to the whole side, and the origin to 0. */
  lemma ScaledWhole(extent: real, side: real)
    requires extent != 0.0
    ensures Scaled(extent, extent, side) == side && Scaled(0.0, extent, side) == 0.0
  {
    assert extent / extent == 1.0;
  }

  lemma CancelNonZero(x: real, y: real, c: real)
    requires c != 0.0 && x * c == y * c
    ensures x == y
  {
    assert (x - y) * c == 0.0;
  }

  /**
   * A fixture's footprint on the map before the minimum size: width and depth swap at
   * exactly 90 and 270; any other angle (180, -90, 450, ...) is drawn unswapped.
   */
  function FixtureExtent(f: Fixture, store: StoreDimensions, m: MapSize): (e: MapPoint)
    requires store.width != 0.0 && store.depth != 0.0
    ensures f.rotation == 90.0 || f.rotation == 270.0 ==>
      e == ToMapCoord(store, m, f.dimensions.depth, f.dimensions.width)
    ensures f.rotation != 90.0 && f.rotation != 270.0 ==>
      e == ToMapCoord(store, m, f.dimensions.width, f.dimensions.depth)
  {
    var rotated := f.rotation == 90.0 || f.rotation == 270.0;
    MapPoint(
      ((if rotated then f.dimensions.depth else f.dimensions.width) / store.width) * m.width,
      ((if rotated then f.dimensions.width else f.dimensions.depth) / store.depth) * m.height)
  }

  /** A drawn rectangle's side: the side itself, raised to 2 when it is smaller. */
  function DrawnSide(v: real): (d: real)
    ensures d >= 2.0 && d >= v
    ensures d == v || d == 2.0
  {
    if v > 2.0 then v else 2.0
  }

  /**
   * The rectangle drawn for a fixture: its corner is the map position less half the
   * unraised extent, and each side is that extent raised to at least 2.
   */
  datatype MapRect = MapRect(x: real, y: real, width: real, height: real)

  function FixtureRect(f: Fixture, store: StoreDimensions, m: MapSize): (r: MapRect)
    requires store.width != 0.0 && store.depth != 0.0
    ensures r.width >= 2.0 && r.height >= 2.0
    ensures var pos := ToMapCoord(store, m, f.position.x, f.position.z);
      var e := FixtureExtent(f, store, m);
      && r.x == pos.x - e.x / 2.0 && r.y == pos.y - e.y / 2.0
      && r.width == DrawnSide(e.x) && r.height == DrawnSide(e.y)
  {
    var pos := ToMapCoord(store, m, f.position.x, f.position.z);
    var e := FixtureExtent(f, store, m);
    MapRect(pos.x - e.x / 2.0, pos.y - e.y / 2.0, DrawnSide(e.x), DrawnSide(e.y))
  }

  /**
   * The rectangle is centred on the fixture's map position along a side exactly when that
   * side's extent is at least 2; a smaller side is raised to the right of (below) the centre.
   */
  lemma FixtureRectCentredIffLarge(f: Fixture, store: StoreDimensions, m: MapSize)
    requires store.width != 0.0 && store.depth != 0.0
    ensures var r := FixtureRect(f, store, m);
      var pos := ToMapCoord(store, m, f.position.x, f.position.z);
      var e := FixtureExtent(f, store, m);
      && (r.x + r.width / 2.0 == pos.x <==> e.x >= 2.0)
      && (r.y + r.height / 2.0 == pos.y <==> e.y >= 2.0)
  {
  }
}
