/**
 * Magnetic snapping and collision geometry for the fixture editor.
 *
 * Everything works on axis-aligned boxes in the floor plane (X and Z). A rotated fixture is
 * approximated by the box that circumscribes it; |cos| and |sin| of its rotation are supplied
 * by a `trig` parameter, because the model does not compute trigonometric functions.
 */
module SnapUtils {
  import opened Wrappers
  import opened StoreTypes

  /** Distance (m) under which a fixture is pulled onto an edge. */
  const SNAP_DISTANCE: real := 0.3
  /** Grid (m) used when nothing snaps. */
  const GRID_SIZE: real := 0.1
  /** Thickness assumed for a wall whose thickness is missing. */
  const DEFAULT_WALL_THICKNESS: real := 0.15
  /** A wall whose end points differ by less than this on one axis runs along the other. */
  const AXIS_TOLERANCE: real := 0.01
  /** Extra clearance added when a fixture is pushed out of a wall. */
  const PUSH_MARGIN: real := 0.01

  /** |cos θ| and |sin θ| of a rotation θ. */
  datatype Trig = Trig(absCos: real, absSin: real)

  ghost predicate ValidTrig(trig: real -> Trig) {
    forall deg :: 0.0 <= trig(deg).absCos <= 1.0 && 0.0 <= trig(deg).absSin <= 1.0
  }

  datatype Edge = Left | Right | Front | Back

  datatype SnapResult = SnapResult(
    position: Point3D, fixtureId: Option<string>, wallId: Option<string>, edge: Option<Edge>)

  datatype FixtureBounds = FixtureBounds(
    minX: real, maxX: real, minZ: real, maxZ: real,
    centerX: real, centerZ: real, width: real, depth: real)

  datatype WallBounds = WallBounds(
    minX: real, maxX: real, minZ: real, maxZ: real, isHorizontal: bool, isVertical: bool)

  function Abs(x: real): real {
    if x < 0.0 then -x else x
  }

  function Min(a: real, b: real): real {
    if a <= b then a else b
  }

  function Max(a: real, b: real): real {
    if a >= b then a else b
  }

  // ---------------------------------------------------------------------------
  // Bounding boxes

  /** The rotation-aware box of a fixture, centred on its position. */
  function GetFixtureBounds(f: Fixture, trig: real -> Trig): (b: FixtureBounds)
    ensures b.centerX == f.position.x && b.centerZ == f.position.z
    ensures b.maxX - b.minX == b.width && b.minX + b.maxX == 2.0 * f.position.x
    ensures b.maxZ - b.minZ == b.depth && b.minZ + b.maxZ == 2.0 * f.position.z
    ensures b.width == f.dimensions.width * trig(f.rotation).absCos + f.dimensions.depth * trig(f.rotation).absSin
    ensures b.depth == f.dimensions.width * trig(f.rotation).absSin + f.dimensions.depth * trig(f.rotation).absCos
  {
    var t := trig(f.rotation);
    var effectiveWidth := f.dimensions.width * t.absCos + f.dimensions.depth * t.absSin;
    var effectiveDepth := f.dimensions.width * t.absSin + f.dimensions.depth * t.absCos;
    FixtureBounds(
      f.position.x - effectiveWidth / 2.0, f.position.x + effectiveWidth / 2.0,
      f.position.z - effectiveDepth / 2.0, f.position.z + effectiveDepth / 2.0,
      f.position.x, f.position.z, effectiveWidth, effectiveDepth)
  }

  /** The box the fixture would have if it stood at `pos`. */
  function BoundsAt(f: Fixture, pos: Point3D, trig: real -> Trig): FixtureBounds {
    GetFixtureBounds(f.(position := pos), trig)
  }

  /** Unrotated (0°, 180°, ...): the box has the fixture's own width and depth. */
  lemma BoundsUnrotated(f: Fixture, trig: real -> Trig)
    requires trig(f.rotation) == Trig(1.0, 0.0)
    ensures GetFixtureBounds(f, trig).width == f.dimensions.width
    ensures GetFixtureBounds(f, trig).depth == f.dimensions.depth
  {
  }

  /** A quarter turn (90°, 270°, ...): width and depth trade places. */
  lemma BoundsQuarterTurn(f: Fixture, trig: real -> Trig)
    requires trig(f.rotation) == Trig(0.0, 1.0)
    ensures GetFixtureBounds(f, trig).width == f.dimensions.depth
    ensures GetFixtureBounds(f, trig).depth == f.dimensions.width
  {
  }

  /**
   * A box depends on the rotation only through its absolute cosine and sine: changing the
   * rotation to any angle with the same pair leaves the box as it was.
   */
  lemma BoundsDependOnlyOnTrig(f: Fixture, turned: real, trig: real -> Trig)
    requires trig(turned) == trig(f.rotation)
    ensures GetFixtureBounds(f.(rotation := turned), trig) == GetFixtureBounds(f, trig)
  {
  }

  /** With non-negative dimensions the box is never inverted, and it contains the centre. */
  lemma BoundsOrdered(f: Fixture, trig: real -> Trig)
    requires ValidTrig(trig)
    requires f.dimensions.width >= 0.0 && f.dimensions.depth >= 0.0
    ensures var b := GetFixtureBounds(f, trig);
      b.minX <= b.centerX <= b.maxX && b.minZ <= b.centerZ <= b.maxZ
  {
    var t := trig(f.rotation);
    assert 0.0 <= t.absCos && 0.0 <= t.absSin;
    MulNonNegative(f.dimensions.width, t.absCos);
    MulNonNegative(f.dimensions.depth, t.absSin);
    MulNonNegative(f.dimensions.width, t.absSin);
    MulNonNegative(f.dimensions.depth, t.absCos);
  }

  function WallThickness(w: Wall): real {
    w.thickness.GetOr(DEFAULT_WALL_THICKNESS)
  }

  /** A wall's box, grown by half its thickness on every side, and its orientation. */
  function GetWallBounds(w: Wall): (b: WallBounds)
    ensures b.isHorizontal <==> Abs(w.end.z - w.start.z) < AXIS_TOLERANCE
    ensures b.isVertical <==> Abs(w.end.x - w.start.x) < AXIS_TOLERANCE
    ensures b.maxX - b.minX == Abs(w.end.x - w.start.x) + WallThickness(w)
    ensures b.maxZ - b.minZ == Abs(w.end.z - w.start.z) + WallThickness(w)
    ensures b.minX == Min(w.start.x, w.end.x) - WallThickness(w) / 2.0
    ensures b.maxX == Max(w.start.x, w.end.x) + WallThickness(w) / 2.0
    ensures b.minZ == Min(w.start.z, w.end.z) - WallThickness(w) / 2.0
    ensures b.maxZ == Max(w.start.z, w.end.z) + WallThickness(w) / 2.0
  {
    var halfThickness := WallThickness(w) / 2.0;
    WallBounds(
      Min(w.start.x, w.end.x) - halfThickness, Max(w.start.x, w.end.x) + halfThickness,
      Min(w.start.z, w.end.z) - halfThickness, Max(w.start.z, w.end.z) + halfThickness,
      Abs(w.end.z - w.start.z) < AXIS_TOLERANCE, Abs(w.end.x - w.start.x) < AXIS_TOLERANCE)
  }

  /** With a non-negative thickness both end points lie inside the wall's box. */
  lemma WallBoundsContainSegment(w: Wall)
    requires WallThickness(w) >= 0.0
    ensures var b := GetWallBounds(w);
      && b.minX <= w.start.x <= b.maxX && b.minX <= w.end.x <= b.maxX
      && b.minZ <= w.start.z <= b.maxZ && b.minZ <= w.end.z <= b.maxZ
  {
  }

  // ---------------------------------------------------------------------------
  // Grid

  /** `Math.round`: halves round towards +∞. */
  function Round(x: real): int {
    (x + 0.5).Floor
  }

  ghost predicate OnGrid(r: real, g: real)
    requires g > 0.0
  {
    (r / g).Floor as real == r / g
  }

  lemma ScaledOffset(q: real, k: int, g: real)
    requires g > 0.0 && -0.5 < k as real - q <= 0.5
    ensures Abs(k as real * g - q * g) <= g / 2.0
  {
    var e := k as real - q;
    assert k as real * g - q * g == e * g;
    assert (0.5 - e) * g == 0.5 * g - e * g;
    assert (e + 0.5) * g == e * g + 0.5 * g;
    MulNonNegative(0.5 - e, g);
    MulNonNegative(e + 0.5, g);
  }

  lemma MulNonNegative(a: real, b: real)
    requires a >= 0.0 && b >= 0.0
    ensures a * b >= 0.0
  {
  }

  /** Rounds `v` to a whole multiple of `g`, at most half a cell away. */
  function SnapToGrid(v: real, g: real): (r: real)
    requires g > 0.0
    ensures OnGrid(r, g)
    ensures Abs(r - v) <= g / 2.0
  {
    var k := Round(v / g);
    assert (k as real * g) / g == k as real;
    assert (k as real).Floor == k;
    assert v == (v / g) * g;
    ScaledOffset(v / g, k, g);
    k as real * g
  }

  /** A value already on the grid stays where it is. */
  lemma SnapToGridIdempotent(k: int, g: real)
    requires g > 0.0
    ensures SnapToGrid(k as real * g, g) == k as real * g
  {
    assert (k as real * g) / g == k as real;
    assert Round(k as real) == k;
  }

  function GridPosition(p: Point3D): Point3D {
    Point3D(SnapToGrid(p.x, GRID_SIZE), p.y, SnapToGrid(p.z, GRID_SIZE))
  }

  // ---------------------------------------------------------------------------
  // Snap candidates and the first-minimum scan

  /** Which alignment a candidate proposes. */
  datatype Alignment = RightEdge | LeftEdge | FrontEdge | BackEdge | CentreX | CentreZ

  datatype Source = FromFixture(fixture: Fixture) | FromWall(wall: Wall)

  /**
   * One snap proposal: its distance, the threshold it must stay under, the alignment gate
   * that must hold, what it snaps to, and the coordinate it moves the fixture's centre to.
   */
  datatype Candidate = Candidate(
    align: Alignment, dist: real, limit: real, gate: bool, source: Source, target: real)
  {
    predicate Eligible() {
      dist < limit && gate
    }
  }

  function EdgeOf(a: Alignment): Option<Edge> {
    match a
    case RightEdge => Some(Right)
    case LeftEdge => Some(Left)
    case FrontEdge => Some(Front)
    case BackEdge => Some(Back)
    case CentreX => None
    case CentreZ => None
  }

  predicate IsEdgeSnap(a: Alignment) {
    a.RightEdge? || a.LeftEdge? || a.FrontEdge? || a.BackEdge?
  }

  /** The running `bestSnap` together with the candidate that produced it. */
  datatype ScanState = ScanState(best: SnapResult, chosen: Option<Candidate>)

  /** `minDistance`, which starts at `Infinity`. */
  datatype Dist = Infinite | Finite(d: real)

  predicate Below(d: real, m: Dist) {
    m.Infinite? || d < m.d
  }

  function MinDistance(st: ScanState): Dist {
    if st.chosen.None? then Infinite else Finite(st.chosen.value.dist)
  }

  function Start(tp: Point3D): ScanState {
    ScanState(SnapResult(tp, None, None, None), None)
  }

  /** Edge snaps start again from the target position; centre snaps keep the previous best. */
  function Placed(tp: Point3D, previous: Point3D, c: Candidate): Point3D {
    match c.align
    case RightEdge => tp.(x := c.target)
    case LeftEdge => tp.(x := c.target)
    case FrontEdge => tp.(z := c.target)
    case BackEdge => tp.(z := c.target)
    case CentreX => previous.(x := c.target)
    case CentreZ => previous.(z := c.target)
  }

  function SnappedTo(tp: Point3D, previous: Point3D, c: Candidate): SnapResult {
    SnapResult(
      Placed(tp, previous, c),
      if c.source.FromFixture? then Some(c.source.fixture.id) else None,
      if c.source.FromWall? then Some(c.source.wall.id) else None,
      EdgeOf(c.align))
  }

  /** One `if (d < limit && d < minDistance) { if (gate) { ... } }` block. */
  function Offer(tp: Point3D, st: ScanState, c: Candidate): ScanState {
    if c.dist < c.limit && Below(c.dist, MinDistance(st)) && c.gate
    then ScanState(SnappedTo(tp, st.best.position, c), Some(c))
    else st
  }

  function Scan(tp: Point3D, st: ScanState, cs: seq<Candidate>): ScanState
    decreases |cs|
  {
    if cs == [] then st else Scan(tp, Offer(tp, st, cs[0]), cs[1..])
  }

  lemma {:induction false} ScanConcat(tp: Point3D, st: ScanState, a: seq<Candidate>, b: seq<Candidate>)
    ensures Scan(tp, st, a + b) == Scan(tp, Scan(tp, st, a), b)
    decreases |a|
  {
    if a == [] {
      assert a + b == b;
    } else {
      assert (a + b)[0] == a[0];
      assert (a + b)[1..] == a[1..] + b;
      ScanConcat(tp, Offer(tp, st, a[0]), a[1..], b);
    }
  }

  ghost predicate NoneEligible(cs: seq<Candidate>) {
    forall j :: 0 <= j < |cs| ==> !cs[j].Eligible()
  }

  /** Candidate `k` is the first eligible one of minimum distance. */
  ghost predicate IsFirstMin(cs: seq<Candidate>, k: int) {
    && 0 <= k < |cs| && cs[k].Eligible()
    && (forall j :: 0 <= j < |cs| && cs[j].Eligible() ==> cs[k].dist <= cs[j].dist)
    && (forall j :: 0 <= j < k && cs[j].Eligible() ==> cs[k].dist < cs[j].dist)
  }

  lemma FirstMinUnique(cs: seq<Candidate>, k: int, m: int)
    requires IsFirstMin(cs, k) && IsFirstMin(cs, m)
    ensures k == m
  {
  }

  /**
   * The scan keeps the strictly-better candidate only, so it ends on the first eligible
   * candidate of minimum distance, and on none exactly when no candidate is eligible.
   */
  lemma {:induction false} ScanChoosesFirstMin(tp: Point3D, cs: seq<Candidate>)
    ensures var st := Scan(tp, Start(tp), cs);
      && (st.chosen.None? <==> NoneEligible(cs))
      && (st.chosen.Some? ==> exists k :: IsFirstMin(cs, k) && st.chosen.value == cs[k])
  {
    if cs != [] {
      var n := |cs| - 1;
      var pre := cs[..n];
      assert cs == pre + [cs[n]];
      ScanConcat(tp, Start(tp), pre, [cs[n]]);
      ScanChoosesFirstMin(tp, pre);
      var s0 := Scan(tp, Start(tp), pre);
      assert [cs[n]][1..] == [];
      assert Scan(tp, Start(tp), cs) == Offer(tp, s0, cs[n]);
      if s0.chosen.None? {
        assert forall j :: 0 <= j < n ==> !cs[j].Eligible() by {
          forall j | 0 <= j < n ensures !cs[j].Eligible() {
            assert pre[j] == cs[j];
          }
        }
        if cs[n].Eligible() {
          assert IsFirstMin(cs, n);
        }
      } else {
        var k :| IsFirstMin(pre, k) && s0.chosen.value == pre[k];
        assert pre[k] == cs[k];
        assert forall j :: 0 <= j < n ==> pre[j] == cs[j];
        if cs[n].Eligible() && cs[n].dist < cs[k].dist {
          assert IsFirstMin(cs, n);
        } else {
          assert IsFirstMin(cs, k);
        }
      }
    }
  }

  /** What `bestSnap` says about the candidate that produced it. */
  ghost predicate Matches(tp: Point3D, r: SnapResult, c: Candidate) {
    && r.fixtureId == (if c.source.FromFixture? then Some(c.source.fixture.id) else None)
    && r.wallId == (if c.source.FromWall? then Some(c.source.wall.id) else None)
    && r.edge == EdgeOf(c.align)
    && (IsEdgeSnap(c.align) ==> r.position == Placed(tp, tp, c))
    && (c.align.CentreX? ==> r.position.x == c.target)
    && (c.align.CentreZ? ==> r.position.z == c.target)
  }

  ghost predicate Consistent(tp: Point3D, st: ScanState) {
    && st.best.position.y == tp.y
    && (st.chosen.None? ==> st.best == SnapResult(tp, None, None, None))
    && (st.chosen.Some? ==> Matches(tp, st.best, st.chosen.value))
  }

  lemma {:induction false} ScanConsistent(tp: Point3D, st: ScanState, cs: seq<Candidate>)
    requires Consistent(tp, st)
    ensures Consistent(tp, Scan(tp, st, cs))
    decreases |cs|
  {
    if cs != [] {
      ScanConsistent(tp, Offer(tp, st, cs[0]), cs[1..]);
    }
  }

  /** The outcome of a scan from the start, read off the first-minimum candidate. */
  lemma ScanOutcome(tp: Point3D, cs: seq<Candidate>, k: int)
    requires IsFirstMin(cs, k)
    ensures Scan(tp, Start(tp), cs).chosen == Some(cs[k])
    ensures Matches(tp, Scan(tp, Start(tp), cs).best, cs[k])
    ensures Scan(tp, Start(tp), cs).best.position.y == tp.y
  {
    ScanChoosesFirstMin(tp, cs);
    ScanConsistent(tp, Start(tp), cs);
    var st := Scan(tp, Start(tp), cs);
    assert st.chosen.Some?;
    var m :| IsFirstMin(cs, m) && st.chosen.value == cs[m];
    FirstMinUnique(cs, k, m);
  }

  // ---------------------------------------------------------------------------
  // Snapping to fixtures

  predicate IsZAligned(a: FixtureBounds, b: FixtureBounds, tolerance: real) {
    Abs(a.centerZ - b.centerZ) < Max(a.depth, b.depth) / 2.0 + tolerance
  }

  predicate IsXAligned(a: FixtureBounds, b: FixtureBounds, tolerance: real) {
    Abs(a.centerX - b.centerX) < Max(a.width, b.width) / 2.0 + tolerance
  }

  predicate IsAdjacentZ(a: FixtureBounds, b: FixtureBounds, tolerance: real) {
    Abs(a.maxZ - b.minZ) < tolerance || Abs(a.minZ - b.maxZ) < tolerance
  }

  predicate IsAdjacentX(a: FixtureBounds, b: FixtureBounds, tolerance: real) {
    Abs(a.maxX - b.minX) < tolerance || Abs(a.minX - b.maxX) < tolerance
  }

  /** Right-edge and left-edge proposals, gated by Z alignment. */
  function EdgeXCandidates(tb: FixtureBounds, other: Fixture, sd: real, trig: real -> Trig): seq<Candidate> {
    var ob := GetFixtureBounds(other, trig);
    [ Candidate(RightEdge, Abs(tb.maxX - ob.minX), sd, IsZAligned(tb, ob, sd), FromFixture(other), ob.minX - tb.width / 2.0),
      Candidate(LeftEdge, Abs(tb.minX - ob.maxX), sd, IsZAligned(tb, ob, sd), FromFixture(other), ob.maxX + tb.width / 2.0) ]
  }

  /** Front and back proposals, gated by X alignment. */
  function EdgeZCandidates(tb: FixtureBounds, other: Fixture, sd: real, trig: real -> Trig): seq<Candidate> {
    var ob := GetFixtureBounds(other, trig);
    [ Candidate(FrontEdge, Abs(tb.maxZ - ob.minZ), sd, IsXAligned(tb, ob, sd), FromFixture(other), ob.minZ - tb.depth / 2.0),
      Candidate(BackEdge, Abs(tb.minZ - ob.maxZ), sd, IsXAligned(tb, ob, sd), FromFixture(other), ob.maxZ + tb.depth / 2.0) ]
  }

  /** Centre proposals, with half the threshold, gated by adjacency on the other axis. */
  function CentreCandidates(tb: FixtureBounds, other: Fixture, sd: real, trig: real -> Trig): seq<Candidate> {
    var ob := GetFixtureBounds(other, trig);
    [ Candidate(CentreX, Abs(tb.centerX - ob.centerX), sd * 0.5, IsAdjacentZ(tb, ob, sd), FromFixture(other), ob.centerX),
      Candidate(CentreZ, Abs(tb.centerZ - ob.centerZ), sd * 0.5, IsAdjacentX(tb, ob, sd), FromFixture(other), ob.centerZ) ]
  }

  /** The six proposals one neighbour makes, in the order the source checks them. */
  function NeighbourCandidates(tb: FixtureBounds, other: Fixture, sd: real, trig: real -> Trig): seq<Candidate> {
    EdgeXCandidates(tb, other, sd, trig) + EdgeZCandidates(tb, other, sd, trig) + CentreCandidates(tb, other, sd, trig)
  }

  /** All proposals, neighbour by neighbour, skipping the target itself (by id). */
  function FixtureCandidates(tb: FixtureBounds, targetId: string, others: seq<Fixture>, sd: real, trig: real -> Trig): seq<Candidate>
    decreases |others|
  {
    if others == [] then []
    else
      var own := if others[0].id == targetId then [] else NeighbourCandidates(tb, others[0], sd, trig);
      own + FixtureCandidates(tb, targetId, others[1..], sd, trig)
  }

  /** Every fixture proposal comes from a listed neighbour with a different id. */
  lemma {:induction false} FixtureCandidateOrigin(tb: FixtureBounds, targetId: string, others: seq<Fixture>, sd: real, trig: real -> Trig, c: Candidate)
    requires c in FixtureCandidates(tb, targetId, others, sd, trig)
    ensures c.source.FromFixture? && c.source.fixture in others && c.source.fixture.id != targetId
    ensures c in NeighbourCandidates(tb, c.source.fixture, sd, trig)
    decreases |others|
  {
    if c !in (if others[0].id == targetId then [] else NeighbourCandidates(tb, others[0], sd, trig)) {
      FixtureCandidateOrigin(tb, targetId, others[1..], sd, trig, c);
    }
  }

  /** `snapToFixtures` as a pure function of its inputs. */
  function FixtureSnapOf(tp: Point3D, target: Fixture, others: seq<Fixture>, sd: real, trig: real -> Trig): SnapResult {
    var tb := BoundsAt(target, tp, trig);
    var st := Scan(tp, Start(tp), FixtureCandidates(tb, target.id, others, sd, trig));
    if Truthy(st.best.fixtureId) then st.best else st.best.(position := GridPosition(tp))
  }

  /** The height of the proposed position is always the target's. */
  lemma FixtureSnapKeepsHeight(tp: Point3D, target: Fixture, others: seq<Fixture>, sd: real, trig: real -> Trig)
    ensures FixtureSnapOf(tp, target, others, sd, trig).position.y == tp.y
  {
    var tb := BoundsAt(target, tp, trig);
    ScanConsistent(tp, Start(tp), FixtureCandidates(tb, target.id, others, sd, trig));
  }

  /** With no eligible proposal the result is the grid-snapped target, attached to nothing. */
  lemma FixtureSnapFallsBackToGrid(tp: Point3D, target: Fixture, others: seq<Fixture>, sd: real, trig: real -> Trig)
    requires NoneEligible(FixtureCandidates(BoundsAt(target, tp, trig), target.id, others, sd, trig))
    ensures FixtureSnapOf(tp, target, others, sd, trig) == SnapResult(GridPosition(tp), None, None, None)
  {
    var cs := FixtureCandidates(BoundsAt(target, tp, trig), target.id, others, sd, trig);
    ScanChoosesFirstMin(tp, cs);
    ScanConsistent(tp, Start(tp), cs);
    var st := Scan(tp, Start(tp), cs);
    assert st.chosen.None?;
    assert st.best == SnapResult(tp, None, None, None);
  }

  /**
   * The winner is the first eligible proposal of minimum distance (neighbour order first,
   * then right, left, front, back, centre-x, centre-z): its fixture id and edge are reported.
   */
  lemma FixtureSnapWinner(tp: Point3D, target: Fixture, others: seq<Fixture>, sd: real, trig: real -> Trig, k: int)
    requires IsFirstMin(FixtureCandidates(BoundsAt(target, tp, trig), target.id, others, sd, trig), k)
    ensures var c := FixtureCandidates(BoundsAt(target, tp, trig), target.id, others, sd, trig)[k];
      var r := FixtureSnapOf(tp, target, others, sd, trig);
      && c.dist < c.limit && c.source.FromFixture?
      && c.source.fixture in others && c.source.fixture.id != target.id
      && r.fixtureId == Some(c.source.fixture.id) && r.wallId == None && r.edge == EdgeOf(c.align)
  {
    var tb := BoundsAt(target, tp, trig);
    var cs := FixtureCandidates(tb, target.id, others, sd, trig);
    ScanOutcome(tp, cs, k);
    FixtureCandidateOrigin(tb, target.id, others, sd, trig, cs[k]);
  }

  /** Where proposal `c` of neighbour `o` leaves the target's box relative to the neighbour's. */
  ghost predicate FixtureContact(target: Fixture, tp: Point3D, p: Point3D, o: Fixture, c: Candidate, trig: real -> Trig) {
    var nb := BoundsAt(target, p, trig);
    var ob := GetFixtureBounds(o, trig);
    && (c.align == RightEdge ==> nb.maxX == ob.minX && p.z == tp.z)
    && (c.align == LeftEdge ==> nb.minX == ob.maxX && p.z == tp.z)
    && (c.align == FrontEdge ==> nb.maxZ == ob.minZ && p.x == tp.x)
    && (c.align == BackEdge ==> nb.minZ == ob.maxZ && p.x == tp.x)
    && (c.align == CentreX ==> p.x == ob.centerX)
    && (c.align == CentreZ ==> p.z == ob.centerZ)
  }

  lemma NeighbourContact(tp: Point3D, target: Fixture, o: Fixture, sd: real, trig: real -> Trig, c: Candidate, r: SnapResult)
    requires c in NeighbourCandidates(BoundsAt(target, tp, trig), o, sd, trig)
    requires Matches(tp, r, c)
    ensures FixtureContact(target, tp, r.position, o, c, trig)
  {
    var tb := BoundsAt(target, tp, trig);
    assert BoundsAt(target, r.position, trig).width == tb.width;
    assert BoundsAt(target, r.position, trig).depth == tb.depth;
  }

  /**
   * When fixtures have non-empty ids, an edge snap leaves the two edges touching exactly and
   * moves only the snapped axis; a centre snap lines the centres up on that axis.
   */
  lemma FixtureSnapContact(tp: Point3D, target: Fixture, others: seq<Fixture>, sd: real, trig: real -> Trig, k: int)
    requires forall o :: o in others ==> o.id != ""
    requires IsFirstMin(FixtureCandidates(BoundsAt(target, tp, trig), target.id, others, sd, trig), k)
    ensures var c := FixtureCandidates(BoundsAt(target, tp, trig), target.id, others, sd, trig)[k];
      var r := FixtureSnapOf(tp, target, others, sd, trig);
      && c.source.FromFixture?
      && FixtureContact(target, tp, r.position, c.source.fixture, c, trig)
      && r.position.y == tp.y
  {
    var tb := BoundsAt(target, tp, trig);
    var cs := FixtureCandidates(tb, target.id, others, sd, trig);
    ScanOutcome(tp, cs, k);
    FixtureCandidateOrigin(tb, target.id, others, sd, trig, cs[k]);
    var st := Scan(tp, Start(tp), cs);
    assert Truthy(st.best.fixtureId);
    assert FixtureSnapOf(tp, target, others, sd, trig) == st.best;
    NeighbourContact(tp, target, cs[k].source.fixture, sd, trig, cs[k], st.best);
  }

  /** Edge checks on X against one neighbour: right edge first, then left. */
  method SnapEdgesX(tp: Point3D, tb: FixtureBounds, other: Fixture, otherBounds: FixtureBounds, snapDistance: real, trig: real -> Trig,
                    bestSnap0: SnapResult, minDistance0: Dist, ghost chosen0: Option<Candidate>)
    returns (bestSnap: SnapResult, minDistance: Dist, ghost chosen: Option<Candidate>)
    requires otherBounds == GetFixtureBounds(other, trig)
    requires minDistance0 == MinDistance(ScanState(bestSnap0, chosen0))
    ensures minDistance == MinDistance(ScanState(bestSnap, chosen))
    ensures ScanState(bestSnap, chosen)
      == Scan(tp, ScanState(bestSnap0, chosen0), EdgeXCandidates(tb, other, snapDistance, trig))
  {
    bestSnap, minDistance, chosen := bestSnap0, minDistance0, chosen0;
    ghost var cs := EdgeXCandidates(tb, other, snapDistance, trig);
    ghost var s0 := ScanState(bestSnap, chosen);
    ScanTwo(tp, s0, cs);

    // target's right edge onto the other's left edge
    var rightToLeft := Abs(tb.maxX - otherBounds.minX);
    if rightToLeft < snapDistance && Below(rightToLeft, minDistance) {
      if IsZAligned(tb, otherBounds, snapDistance) {
        minDistance := Finite(rightToLeft);
        bestSnap := SnapResult(tp.(x := otherBounds.minX - tb.width / 2.0), Some(other.id), None, Some(Right));
        chosen := Some(cs[0]);
      }
    }
    ghost var s1 := ScanState(bestSnap, chosen);
    assert s1 == Offer(tp, s0, cs[0]);

    // target's left edge onto the other's right edge
    var leftToRight := Abs(tb.minX - otherBounds.maxX);
    if leftToRight < snapDistance && Below(leftToRight, minDistance) {
      if IsZAligned(tb, otherBounds, snapDistance) {
        minDistance := Finite(leftToRight);
        bestSnap := SnapResult(tp.(x := otherBounds.maxX + tb.width / 2.0), Some(other.id), None, Some(Left));
        chosen := Some(cs[1]);
      }
    }
    assert ScanState(bestSnap, chosen) == Offer(tp, s1, cs[1]);
  }

  /** Edge checks on Z against one neighbour: front first, then back. */
  method SnapEdgesZ(tp: Point3D, tb: FixtureBounds, other: Fixture, otherBounds: FixtureBounds, snapDistance: real, trig: real -> Trig,
                    bestSnap0: SnapResult, minDistance0: Dist, ghost chosen0: Option<Candidate>)
    returns (bestSnap: SnapResult, minDistance: Dist, ghost chosen: Option<Candidate>)
    requires otherBounds == GetFixtureBounds(other, trig)
    requires minDistance0 == MinDistance(ScanState(bestSnap0, chosen0))
    ensures minDistance == MinDistance(ScanState(bestSnap, chosen))
    ensures ScanState(bestSnap, chosen)
      == Scan(tp, ScanState(bestSnap0, chosen0), EdgeZCandidates(tb, other, snapDistance, trig))
  {
    bestSnap, minDistance, chosen := bestSnap0, minDistance0, chosen0;
    ghost var cs := EdgeZCandidates(tb, other, snapDistance, trig);
    ghost var s0 := ScanState(bestSnap, chosen);
    ScanTwo(tp, s0, cs);

    // target's front onto the other's back
    var frontToBack := Abs(tb.maxZ - otherBounds.minZ);
    if frontToBack < snapDistance && Below(frontToBack, minDistance) {
      if IsXAligned(tb, otherBounds, snapDistance) {
        minDistance := Finite(frontToBack);
        bestSnap := SnapResult(tp.(z := otherBounds.minZ - tb.depth / 2.0), Some(other.id), None, Some(Front));
        chosen := Some(cs[0]);
      }
    }
    ghost var s1 := ScanState(bestSnap, chosen);
    assert s1 == Offer(tp, s0, cs[0]);

    // target's back onto the other's front
    var backToFront := Abs(tb.minZ - otherBounds.maxZ);
    if backToFront < snapDistance && Below(backToFront, minDistance) {
      if IsXAligned(tb, otherBounds, snapDistance) {
        minDistance := Finite(backToFront);
        bestSnap := SnapResult(tp.(z := otherBounds.maxZ + tb.depth / 2.0), Some(other.id), None, Some(Back));
        chosen := Some(cs[1]);
      }
    }
    assert ScanState(bestSnap, chosen) == Offer(tp, s1, cs[1]);
  }

  /** Centre checks against one neighbour; they keep whatever the best position already was. */
  method SnapCentres(tp: Point3D, tb: FixtureBounds, other: Fixture, otherBounds: FixtureBounds, snapDistance: real, trig: real -> Trig,
                     bestSnap0: SnapResult, minDistance0: Dist, ghost chosen0: Option<Candidate>)
    returns (bestSnap: SnapResult, minDistance: Dist, ghost chosen: Option<Candidate>)
    requires otherBounds == GetFixtureBounds(other, trig)
    requires minDistance0 == MinDistance(ScanState(bestSnap0, chosen0))
    ensures minDistance == MinDistance(ScanState(bestSnap, chosen))
    ensures ScanState(bestSnap, chosen)
      == Scan(tp, ScanState(bestSnap0, chosen0), CentreCandidates(tb, other, snapDistance, trig))
  {
    bestSnap, minDistance, chosen := bestSnap0, minDistance0, chosen0;
    ghost var cs := CentreCandidates(tb, other, snapDistance, trig);
    ghost var s0 := ScanState(bestSnap, chosen);
    ScanTwo(tp, s0, cs);

    // centre alignment on X
    var centerXDiff := Abs(tb.centerX - otherBounds.centerX);
    if centerXDiff < snapDistance * 0.5 && Below(centerXDiff, minDistance) {
      if IsAdjacentZ(tb, otherBounds, snapDistance) {
        minDistance := Finite(centerXDiff);
        bestSnap := SnapResult(bestSnap.position.(x := otherBounds.centerX), Some(other.id), None, None);
        chosen := Some(cs[0]);
      }
    }
    ghost var s1 := ScanState(bestSnap, chosen);
    assert s1 == Offer(tp, s0, cs[0]);

    // centre alignment on Z
    var centerZDiff := Abs(tb.centerZ - otherBounds.centerZ);
    if centerZDiff < snapDistance * 0.5 && Below(centerZDiff, minDistance) {
      if IsAdjacentX(tb, otherBounds, snapDistance) {
        minDistance := Finite(centerZDiff);
        bestSnap := SnapResult(bestSnap.position.(z := otherBounds.centerZ), Some(other.id), None, None);
        chosen := Some(cs[1]);
      }
    }
    assert ScanState(bestSnap, chosen) == Offer(tp, s1, cs[1]);
  }

  /** `snapToFixtures`: the loop over neighbours, then the grid fallback. */
  method SnapToFixtures(targetPosition: Point3D, targetFixture: Fixture, otherFixtures: seq<Fixture>, snapDistance: real, trig: real -> Trig)
    returns (result: SnapResult)
    ensures result == FixtureSnapOf(targetPosition, targetFixture, otherFixtures, snapDistance, trig)
  {
    var tp := targetPosition;
    var tb := BoundsAt(targetFixture, targetPosition, trig);
    var bestSnap := SnapResult(targetPosition, None, None, None);
    var minDistance: Dist := Infinite;
    ghost var chosen: Option<Candidate> := None;
    ghost var final := Scan(tp, Start(tp), FixtureCandidates(tb, targetFixture.id, otherFixtures, snapDistance, trig));

    for i := 0 to |otherFixtures|
      invariant minDistance == MinDistance(ScanState(bestSnap, chosen))
      invariant Scan(tp, ScanState(bestSnap, chosen), FixtureCandidates(tb, targetFixture.id, otherFixtures[i..], snapDistance, trig)) == final
    {
      var other := otherFixtures[i];
      assert otherFixtures[i..][0] == other;
      assert otherFixtures[i..][1..] == otherFixtures[i + 1..];
      ghost var rest := FixtureCandidates(tb, targetFixture.id, otherFixtures[i + 1..], snapDistance, trig);
      if other.id == targetFixture.id {
        assert [] + rest == rest;
        continue;
      }
      var otherBounds := GetFixtureBounds(other, trig);
      ghost var st := ScanState(bestSnap, chosen);
      ghost var xs := EdgeXCandidates(tb, other, snapDistance, trig);
      ghost var zs := EdgeZCandidates(tb, other, snapDistance, trig);
      ghost var ms := CentreCandidates(tb, other, snapDistance, trig);
      ScanConcat(tp, st, NeighbourCandidates(tb, other, snapDistance, trig), rest);
      ScanConcat(tp, st, xs + zs, ms);
      ScanConcat(tp, st, xs, zs);
      bestSnap, minDistance, chosen := SnapEdgesX(tp, tb, other, otherBounds, snapDistance, trig, bestSnap, minDistance, chosen);
      bestSnap, minDistance, chosen := SnapEdgesZ(tp, tb, other, otherBounds, snapDistance, trig, bestSnap, minDistance, chosen);
      bestSnap, minDistance, chosen := SnapCentres(tp, tb, other, otherBounds, snapDistance, trig, bestSnap, minDistance, chosen);
    }

    if !Truthy(bestSnap.fixtureId) {
      bestSnap := bestSnap.(position := Point3D(SnapToGrid(targetPosition.x, GRID_SIZE), targetPosition.y, SnapToGrid(targetPosition.z, GRID_SIZE)));
    }
    result := bestSnap;
  }

  // ---------------------------------------------------------------------------
  // Snapping to walls

  /** The fixture's box overlaps the wall's along Z (needed before snapping on X). */
  predicate SpansZ(tb: FixtureBounds, wb: WallBounds) {
    tb.maxZ > wb.minZ && tb.minZ < wb.maxZ
  }

  predicate SpansX(tb: FixtureBounds, wb: WallBounds) {
    tb.maxX > wb.minX && tb.minX < wb.maxX
  }

  /** A vertical wall proposes the right-edge and left-edge snaps on X. */
  function VerticalWallCandidates(tb: FixtureBounds, w: Wall, sd: real): seq<Candidate> {
    var wb := GetWallBounds(w);
    if wb.isVertical then
      [ Candidate(RightEdge, Abs(tb.maxX - wb.minX), sd, SpansZ(tb, wb), FromWall(w), wb.minX - tb.width / 2.0),
        Candidate(LeftEdge, Abs(tb.minX - wb.maxX), sd, SpansZ(tb, wb), FromWall(w), wb.maxX + tb.width / 2.0) ]
    else []
  }

  /** A horizontal wall proposes the front and back snaps on Z. */
  function HorizontalWallCandidates(tb: FixtureBounds, w: Wall, sd: real): seq<Candidate> {
    var wb := GetWallBounds(w);
    if wb.isHorizontal then
      [ Candidate(FrontEdge, Abs(tb.maxZ - wb.minZ), sd, SpansX(tb, wb), FromWall(w), wb.minZ - tb.depth / 2.0),
        Candidate(BackEdge, Abs(tb.minZ - wb.maxZ), sd, SpansX(tb, wb), FromWall(w), wb.maxZ + tb.depth / 2.0) ]
    else []
  }

  function WallCandidatesOf(tb: FixtureBounds, w: Wall, sd: real): seq<Candidate> {
    VerticalWallCandidates(tb, w, sd) + HorizontalWallCandidates(tb, w, sd)
  }

  function WallCandidates(tb: FixtureBounds, walls: seq<Wall>, sd: real): seq<Candidate>
    decreases |walls|
  {
    if walls == [] then [] else WallCandidatesOf(tb, walls[0], sd) + WallCandidates(tb, walls[1..], sd)
  }

  lemma {:induction false} WallCandidateOrigin(tb: FixtureBounds, walls: seq<Wall>, sd: real, c: Candidate)
    requires c in WallCandidates(tb, walls, sd)
    ensures c.source.FromWall? && c.source.wall in walls
    ensures c in WallCandidatesOf(tb, c.source.wall, sd)
    decreases |walls|
  {
    if c !in WallCandidatesOf(tb, walls[0], sd) {
      WallCandidateOrigin(tb, walls[1..], sd, c);
    }
  }

  /** `snapToWalls` as a pure function of its inputs: there is no grid fallback. */
  function WallSnapOf(tp: Point3D, target: Fixture, walls: seq<Wall>, sd: real, trig: real -> Trig): SnapResult {
    Scan(tp, Start(tp), WallCandidates(BoundsAt(target, tp, trig), walls, sd)).best
  }

  /** With no eligible wall proposal the position comes back unchanged and no wall is reported. */
  lemma WallSnapNoFallback(tp: Point3D, target: Fixture, walls: seq<Wall>, sd: real, trig: real -> Trig)
    requires NoneEligible(WallCandidates(BoundsAt(target, tp, trig), walls, sd))
    ensures WallSnapOf(tp, target, walls, sd, trig) == SnapResult(tp, None, None, None)
  {
    var cs := WallCandidates(BoundsAt(target, tp, trig), walls, sd);
    ScanChoosesFirstMin(tp, cs);
    ScanConsistent(tp, Start(tp), cs);
    assert Scan(tp, Start(tp), cs).chosen.None?;
  }

  /** A wall snap never changes the height of the position. */
  lemma WallSnapKeepsHeight(tp: Point3D, target: Fixture, walls: seq<Wall>, sd: real, trig: real -> Trig)
    ensures WallSnapOf(tp, target, walls, sd, trig).position.y == tp.y
  {
    ScanConsistent(tp, Start(tp), WallCandidates(BoundsAt(target, tp, trig), walls, sd));
  }

  /** Where proposal `c` of wall `w` leaves the target: flush with the wall, moved on one axis. */
  ghost predicate WallContact(target: Fixture, tp: Point3D, p: Point3D, w: Wall, c: Candidate, trig: real -> Trig) {
    var nb := BoundsAt(target, p, trig);
    var wb := GetWallBounds(w);
    && ((c.align == RightEdge || c.align == LeftEdge) ==> wb.isVertical && p.y == tp.y && p.z == tp.z)
    && ((c.align == FrontEdge || c.align == BackEdge) ==> wb.isHorizontal && p.y == tp.y && p.x == tp.x)
    && IsEdgeSnap(c.align)
    && (c.align == RightEdge ==> nb.maxX == wb.minX)
    && (c.align == LeftEdge ==> nb.minX == wb.maxX)
    && (c.align == FrontEdge ==> nb.maxZ == wb.minZ)
    && (c.align == BackEdge ==> nb.minZ == wb.maxZ)
  }

  lemma WallCandidateContact(tp: Point3D, target: Fixture, w: Wall, sd: real, trig: real -> Trig, c: Candidate, r: SnapResult)
    requires c in WallCandidatesOf(BoundsAt(target, tp, trig), w, sd)
    requires Matches(tp, r, c)
    ensures c.limit == sd
    ensures WallContact(target, tp, r.position, w, c, trig)
  {
    var tb := BoundsAt(target, tp, trig);
    assert BoundsAt(target, r.position, trig).width == tb.width;
    assert BoundsAt(target, r.position, trig).depth == tb.depth;
  }

  /**
   * The first minimum-distance eligible wall proposal wins; it is reported with its wall's id
   * and edge, and the fixture ends up flush with that wall.
   */
  lemma WallSnapWinner(tp: Point3D, target: Fixture, walls: seq<Wall>, sd: real, trig: real -> Trig, k: int)
    requires IsFirstMin(WallCandidates(BoundsAt(target, tp, trig), walls, sd), k)
    ensures var c := WallCandidates(BoundsAt(target, tp, trig), walls, sd)[k];
      var r := WallSnapOf(tp, target, walls, sd, trig);
      && c.dist < sd && c.source.FromWall? && c.source.wall in walls
      && r.wallId == Some(c.source.wall.id) && r.fixtureId == None && r.edge == EdgeOf(c.align)
      && WallContact(target, tp, r.position, c.source.wall, c, trig)
  {
    var tb := BoundsAt(target, tp, trig);
    var cs := WallCandidates(tb, walls, sd);
    ScanOutcome(tp, cs, k);
    WallCandidateOrigin(tb, walls, sd, cs[k]);
    WallCandidateContact(tp, target, cs[k].source.wall, sd, trig, cs[k], Scan(tp, Start(tp), cs).best);
  }

  lemma ScanTwo(tp: Point3D, st: ScanState, cs: seq<Candidate>)
    requires |cs| == 2
    ensures Scan(tp, st, cs) == Offer(tp, Offer(tp, st, cs[0]), cs[1])
  {
    var s1 := Offer(tp, st, cs[0]);
    assert Scan(tp, st, cs) == Scan(tp, s1, cs[1..]);
    assert Scan(tp, s1, cs[1..]) == Scan(tp, Offer(tp, s1, cs[1]), []) by { assert cs[1..][1..] == []; }
  }

  /** Against a vertical wall: snap the fixture's right, then left, edge onto it. */
  method SnapToVerticalWall(tp: Point3D, tb: FixtureBounds, wall: Wall, snapDistance: real,
                            bestSnap0: SnapResult, minDistance0: Dist, ghost chosen0: Option<Candidate>)
    returns (bestSnap: SnapResult, minDistance: Dist, ghost chosen: Option<Candidate>)
    requires minDistance0 == MinDistance(ScanState(bestSnap0, chosen0))
    ensures minDistance == MinDistance(ScanState(bestSnap, chosen))
    ensures ScanState(bestSnap, chosen)
      == Scan(tp, ScanState(bestSnap0, chosen0), VerticalWallCandidates(tb, wall, snapDistance))
  {
    bestSnap, minDistance, chosen := bestSnap0, minDistance0, chosen0;
    var wallBounds := GetWallBounds(wall);
    if !wallBounds.isVertical {
      return;
    }
    ghost var vs := VerticalWallCandidates(tb, wall, snapDistance);
    ghost var s0 := ScanState(bestSnap, chosen);
    ScanTwo(tp, s0, vs);

    // fixture's right edge onto the wall's left face
    var rightToWall := Abs(tb.maxX - wallBounds.minX);
    if rightToWall < snapDistance && Below(rightToWall, minDistance) {
      if tb.maxZ > wallBounds.minZ && tb.minZ < wallBounds.maxZ {
        minDistance := Finite(rightToWall);
        bestSnap := SnapResult(tp.(x := wallBounds.minX - tb.width / 2.0), None, Some(wall.id), Some(Right));
        chosen := Some(vs[0]);
      }
    }
    ghost var s1 := ScanState(bestSnap, chosen);
    assert s1 == Offer(tp, s0, vs[0]);

    // fixture's left edge onto the wall's right face
    var leftToWall := Abs(tb.minX - wallBounds.maxX);
    if leftToWall < snapDistance && Below(leftToWall, minDistance) {
      if tb.maxZ > wallBounds.minZ && tb.minZ < wallBounds.maxZ {
        minDistance := Finite(leftToWall);
        bestSnap := SnapResult(tp.(x := wallBounds.maxX + tb.width / 2.0), None, Some(wall.id), Some(Left));
        chosen := Some(vs[1]);
      }
    }
    assert ScanState(bestSnap, chosen) == Offer(tp, s1, vs[1]);
  }

  /** Against a horizontal wall: snap the fixture's front, then back, onto it. */
  method SnapToHorizontalWall(tp: Point3D, tb: FixtureBounds, wall: Wall, snapDistance: real,
                              bestSnap0: SnapResult, minDistance0: Dist, ghost chosen0: Option<Candidate>)
    returns (bestSnap: SnapResult, minDistance: Dist, ghost chosen: Option<Candidate>)
    requires minDistance0 == MinDistance(ScanState(bestSnap0, chosen0))
    ensures minDistance == MinDistance(ScanState(bestSnap, chosen))
    ensures ScanState(bestSnap, chosen)
      == Scan(tp, ScanState(bestSnap0, chosen0), HorizontalWallCandidates(tb, wall, snapDistance))
  {
    bestSnap, minDistance, chosen := bestSnap0, minDistance0, chosen0;
    var wallBounds := GetWallBounds(wall);
    if !wallBounds.isHorizontal {
      return;
    }
    ghost var hs := HorizontalWallCandidates(tb, wall, snapDistance);
    ghost var s0 := ScanState(bestSnap, chosen);
    ScanTwo(tp, s0, hs);

    // fixture's front onto the wall
    var frontToWall := Abs(tb.maxZ - wallBounds.minZ);
    if frontToWall < snapDistance && Below(frontToWall, minDistance) {
      if tb.maxX > wallBounds.minX && tb.minX < wallBounds.maxX {
        minDistance := Finite(frontToWall);
        bestSnap := SnapResult(tp.(z := wallBounds.minZ - tb.depth / 2.0), None, Some(wall.id), Some(Front));
        chosen := Some(hs[0]);
      }
    }
    ghost var s1 := ScanState(bestSnap, chosen);
    assert s1 == Offer(tp, s0, hs[0]);

    // fixture's back onto the wall
    var backToWall := Abs(tb.minZ - wallBounds.maxZ);
    if backToWall < snapDistance && Below(backToWall, minDistance) {
      if tb.maxX > wallBounds.minX && tb.minX < wallBounds.maxX {
        minDistance := Finite(backToWall);
        bestSnap := SnapResult(tp.(z := wallBounds.maxZ + tb.depth / 2.0), None, Some(wall.id), Some(Back));
        chosen := Some(hs[1]);
      }
    }
    assert ScanState(bestSnap, chosen) == Offer(tp, s1, hs[1]);
  }

  /** `snapToWalls`: the loop over walls. */
  method SnapToWalls(targetPosition: Point3D, targetFixture: Fixture, walls: seq<Wall>, snapDistance: real, trig: real -> Trig)
    returns (result: SnapResult)
    ensures result == WallSnapOf(targetPosition, targetFixture, walls, snapDistance, trig)
  {
    var tp := targetPosition;
    var tb := BoundsAt(targetFixture, targetPosition, trig);
    var bestSnap := SnapResult(targetPosition, None, None, None);
    var minDistance: Dist := Infinite;
    ghost var chosen: Option<Candidate> := None;
    ghost var final := Scan(tp, Start(tp), WallCandidates(tb, walls, snapDistance));

    for i := 0 to |walls|
      invariant minDistance == MinDistance(ScanState(bestSnap, chosen))
      invariant Scan(tp, ScanState(bestSnap, chosen), WallCandidates(tb, walls[i..], snapDistance)) == final
    {
      assert walls[i..][0] == walls[i];
      assert walls[i..][1..] == walls[i + 1..];
      var wall := walls[i];
      ghost var st := ScanState(bestSnap, chosen);
      ScanConcat(tp, st, WallCandidatesOf(tb, wall, snapDistance), WallCandidates(tb, walls[i + 1..], snapDistance));
      ScanConcat(tp, st, VerticalWallCandidates(tb, wall, snapDistance), HorizontalWallCandidates(tb, wall, snapDistance));
      bestSnap, minDistance, chosen := SnapToVerticalWall(tp, tb, wall, snapDistance, bestSnap, minDistance, chosen);
      bestSnap, minDistance, chosen := SnapToHorizontalWall(tp, tb, wall, snapDistance, bestSnap, minDistance, chosen);
    }
    result := bestSnap;
  }

  // ---------------------------------------------------------------------------
  // Collision

  /** Strict overlap on both axes: boxes that only touch do not overlap. */
  predicate BoxesOverlap(a: FixtureBounds, b: FixtureBounds) {
    a.maxX > b.minX && a.minX < b.maxX && a.maxZ > b.minZ && a.minZ < b.maxZ
  }

  predicate OverlapsWall(a: FixtureBounds, b: WallBounds) {
    a.maxX > b.minX && a.minX < b.maxX && a.maxZ > b.minZ && a.minZ < b.maxZ
  }

  /** Placed at `pos`, the fixture strictly overlaps a fixture with a different id. */
  predicate Collides(f: Fixture, pos: Point3D, others: seq<Fixture>, trig: real -> Trig) {
    exists k :: 0 <= k < |others| && others[k].id != f.id
      && BoxesOverlap(BoundsAt(f, pos, trig), GetFixtureBounds(others[k], trig))
  }

  /** Placed at `pos`, the fixture strictly overlaps some wall's box. */
  predicate CollidesWithWall(f: Fixture, pos: Point3D, walls: seq<Wall>, trig: real -> Trig) {
    exists k :: 0 <= k < |walls| && OverlapsWall(BoundsAt(f, pos, trig), GetWallBounds(walls[k]))
  }

  /** Edges that touch are not a collision. */
  lemma TouchingIsNoCollision(a: FixtureBounds, b: FixtureBounds)
    requires a.maxX == b.minX || a.minX == b.maxX || a.maxZ == b.minZ || a.minZ == b.maxZ
    ensures !BoxesOverlap(a, b) && !BoxesOverlap(b, a)
  {
  }

  /** Fixtures sharing the target's id never count, so removing them changes nothing. */
  lemma CollidesIgnoresSelf(f: Fixture, pos: Point3D, others: seq<Fixture>, trig: real -> Trig)
    ensures Collides(f, pos, others, trig) <==> Collides(f, pos, Filter(others, (o: Fixture) => o.id != f.id), trig)
  {
    var kept := Filter(others, (o: Fixture) => o.id != f.id);
    if Collides(f, pos, others, trig) {
      var k :| 0 <= k < |others| && others[k].id != f.id
        && BoxesOverlap(BoundsAt(f, pos, trig), GetFixtureBounds(others[k], trig));
      assert others[k] in kept;
      var m :| 0 <= m < |kept| && kept[m] == others[k];
      assert Collides(f, pos, kept, trig);
    }
    if Collides(f, pos, kept, trig) {
      var m :| 0 <= m < |kept| && kept[m].id != f.id
        && BoxesOverlap(BoundsAt(f, pos, trig), GetFixtureBounds(kept[m], trig));
      assert kept[m] in others;
      var k :| 0 <= k < |others| && others[k] == kept[m];
      assert Collides(f, pos, others, trig);
    }
  }

  /** `checkCollision`: an early-return loop over the other fixtures. */
  method CheckCollision(fixture: Fixture, position: Point3D, otherFixtures: seq<Fixture>, trig: real -> Trig)
    returns (hit: bool)
    ensures hit == Collides(fixture, position, otherFixtures, trig)
  {
    var targetBounds := BoundsAt(fixture, position, trig);
    for i := 0 to |otherFixtures|
      invariant forall k :: 0 <= k < i && otherFixtures[k].id != fixture.id ==>
        !BoxesOverlap(targetBounds, GetFixtureBounds(otherFixtures[k], trig))
    {
      var other := otherFixtures[i];
      if other.id == fixture.id {
        continue;
      }
      var otherBounds := GetFixtureBounds(other, trig);
      var xOverlap := targetBounds.maxX > otherBounds.minX && targetBounds.minX < otherBounds.maxX;
      var zOverlap := targetBounds.maxZ > otherBounds.minZ && targetBounds.minZ < otherBounds.maxZ;
      if xOverlap && zOverlap {
        return true;
      }
    }
    return false;
  }

  /** `checkWallCollision`: an early-return loop over the walls. */
  method CheckWallCollision(fixture: Fixture, position: Point3D, walls: seq<Wall>, trig: real -> Trig)
    returns (hit: bool)
    ensures hit == CollidesWithWall(fixture, position, walls, trig)
  {
    var targetBounds := BoundsAt(fixture, position, trig);
    for i := 0 to |walls|
      invariant forall k :: 0 <= k < i ==> !OverlapsWall(targetBounds, GetWallBounds(walls[k]))
    {
      var wallBounds := GetWallBounds(walls[i]);
      var xOverlap := targetBounds.maxX > wallBounds.minX && targetBounds.minX < wallBounds.maxX;
      var zOverlap := targetBounds.maxZ > wallBounds.minZ && targetBounds.minZ < wallBounds.maxZ;
      if xOverlap && zOverlap {
        return true;
      }
    }
    return false;
  }

  // ---------------------------------------------------------------------------
  // Fixture snap, then wall snap, then roll-back

  /**
   * `snapToFixturesAndWalls`: a wall snap overrides the fixture snap; a result that would
   * enter a wall is replaced by the fixture's current (pre-drag) position.
   */
  function SnapToFixturesAndWalls(tp: Point3D, target: Fixture, others: seq<Fixture>, walls: seq<Wall>, sd: real, trig: real -> Trig)
    : (r: SnapResult)
    ensures !CollidesWithWall(target, r.position, walls, trig) || r.position == target.position
    ensures r.fixtureId == FixtureSnapOf(tp, target, others, sd, trig).fixtureId
    ensures r.wallId == WallSnapOf(FixtureSnapOf(tp, target, others, sd, trig).position, target, walls, sd, trig).wallId
  {
    var fixtureSnap := FixtureSnapOf(tp, target, others, sd, trig);
    var wallSnap := WallSnapOf(fixtureSnap.position, target, walls, sd, trig);
    var finalPosition := if Truthy(wallSnap.wallId) then wallSnap.position else fixtureSnap.position;
    var position := if CollidesWithWall(target, finalPosition, walls, trig) then target.position else finalPosition;
    SnapResult(position, fixtureSnap.fixtureId, wallSnap.wallId,
      if wallSnap.edge.Some? then wallSnap.edge else fixtureSnap.edge)
  }

  /** A wall snap that does not enter a wall is the position returned. */
  lemma WallSnapTakesPriority(tp: Point3D, target: Fixture, others: seq<Fixture>, walls: seq<Wall>, sd: real, trig: real -> Trig)
    requires var ws := WallSnapOf(FixtureSnapOf(tp, target, others, sd, trig).position, target, walls, sd, trig);
      Truthy(ws.wallId) && !CollidesWithWall(target, ws.position, walls, trig)
    ensures SnapToFixturesAndWalls(tp, target, others, walls, sd, trig).position
      == WallSnapOf(FixtureSnapOf(tp, target, others, sd, trig).position, target, walls, sd, trig).position
  {
  }

  /** Without a wall snap, a fixture snap that does not enter a wall is the position returned. */
  lemma FixtureSnapUsedWithoutWall(tp: Point3D, target: Fixture, others: seq<Fixture>, walls: seq<Wall>, sd: real, trig: real -> Trig)
    requires var fs := FixtureSnapOf(tp, target, others, sd, trig);
      !Truthy(WallSnapOf(fs.position, target, walls, sd, trig).wallId)
      && !CollidesWithWall(target, fs.position, walls, trig)
    ensures SnapToFixturesAndWalls(tp, target, others, walls, sd, trig).position
      == FixtureSnapOf(tp, target, others, sd, trig).position
  {
  }

  /** A selected position inside a wall is rolled back exactly to the pre-drag position. */
  lemma WallPenetrationRollsBack(tp: Point3D, target: Fixture, others: seq<Fixture>, walls: seq<Wall>, sd: real, trig: real -> Trig)
    requires var fs := FixtureSnapOf(tp, target, others, sd, trig);
      var ws := WallSnapOf(fs.position, target, walls, sd, trig);
      CollidesWithWall(target, if Truthy(ws.wallId) then ws.position else fs.position, walls, trig)
    ensures SnapToFixturesAndWalls(tp, target, others, walls, sd, trig).position == target.position
  {
  }

  /** Dragged at its own height, the fixture stays at that height whatever is snapped or rolled back. */
  lemma CombinedSnapKeepsHeight(tp: Point3D, target: Fixture, others: seq<Fixture>, walls: seq<Wall>, sd: real, trig: real -> Trig)
    requires tp.y == target.position.y
    ensures SnapToFixturesAndWalls(tp, target, others, walls, sd, trig).position.y == tp.y
  {
    var fs := FixtureSnapOf(tp, target, others, sd, trig);
    FixtureSnapKeepsHeight(tp, target, others, sd, trig);
    WallSnapKeepsHeight(fs.position, target, walls, sd, trig);
  }

  /** The reported edge is the wall's when a wall snapped, else the fixture snap's. */
  lemma WallEdgePreferred(tp: Point3D, target: Fixture, others: seq<Fixture>, walls: seq<Wall>, sd: real, trig: real -> Trig)
    ensures var fs := FixtureSnapOf(tp, target, others, sd, trig);
      var ws := WallSnapOf(fs.position, target, walls, sd, trig);
      var r := SnapToFixturesAndWalls(tp, target, others, walls, sd, trig);
      (ws.edge.Some? ==> r.edge == ws.edge) && (ws.edge.None? ==> r.edge == fs.edge)
  {
  }

  // ---------------------------------------------------------------------------
  // Push-out correction

  /** Shift along X out of a wall, towards the nearer face, plus the margin. */
  function PushX(b: FixtureBounds, wb: WallBounds): real {
    var pushLeft := wb.minX - b.maxX;
    var pushRight := wb.maxX - b.minX;
    if Abs(pushLeft) < Abs(pushRight) then pushLeft - PUSH_MARGIN else pushRight + PUSH_MARGIN
  }

  function PushZ(b: FixtureBounds, wb: WallBounds): real {
    var pushFront := wb.minZ - b.maxZ;
    var pushBack := wb.maxZ - b.minZ;
    if Abs(pushFront) < Abs(pushBack) then pushFront - PUSH_MARGIN else pushBack + PUSH_MARGIN
  }

  /** The correction for one wall; overlap is always judged on the original box `b`. */
  function PushOut(pos: Point3D, b: FixtureBounds, w: Wall): Point3D {
    var wb := GetWallBounds(w);
    var overlap := OverlapsWall(b, wb);
    var afterX := if wb.isVertical && overlap then pos.(x := pos.x + PushX(b, wb)) else pos;
    if wb.isHorizontal && overlap then afterX.(z := afterX.z + PushZ(b, wb)) else afterX
  }

  function ClampFrom(pos: Point3D, b: FixtureBounds, walls: seq<Wall>): Point3D
    decreases |walls|
  {
    if walls == [] then pos else ClampFrom(PushOut(pos, b, walls[0]), b, walls[1..])
  }

  /** `clampToWallBounds` as a pure function: corrections for all walls accumulate. */
  function ClampedPosition(pos: Point3D, f: Fixture, walls: seq<Wall>, trig: real -> Trig): Point3D {
    ClampFrom(pos, BoundsAt(f, pos, trig), walls)
  }

  /** The push is the smaller of the two face distances, plus the margin, and points outwards. */
  lemma PushIsShorterWay(b: FixtureBounds, wb: WallBounds)
    requires OverlapsWall(b, wb)
    ensures Abs(PushX(b, wb)) == Min(Abs(wb.minX - b.maxX), Abs(wb.maxX - b.minX)) + PUSH_MARGIN
    ensures Abs(PushZ(b, wb)) == Min(Abs(wb.minZ - b.maxZ), Abs(wb.maxZ - b.minZ)) + PUSH_MARGIN
  {
  }

  lemma {:induction false} ClampKeepsHeight(pos: Point3D, b: FixtureBounds, walls: seq<Wall>)
    ensures ClampFrom(pos, b, walls).y == pos.y
    decreases |walls|
  {
    if walls != [] {
      ClampKeepsHeight(PushOut(pos, b, walls[0]), b, walls[1..]);
    }
  }

  /** The box misses the wall, or the wall is diagonal (neither vertical nor horizontal). */
  predicate NeedsNoPush(b: FixtureBounds, w: Wall) {
    var wb := GetWallBounds(w);
    !OverlapsWall(b, wb) || (!wb.isVertical && !wb.isHorizontal)
  }

  /** Walls the box does not overlap, and diagonal walls, cause no correction. */
  lemma {:induction false} ClampIgnoresClearAndDiagonalWalls(pos: Point3D, b: FixtureBounds, walls: seq<Wall>)
    requires forall k :: 0 <= k < |walls| ==> NeedsNoPush(b, walls[k])
    ensures ClampFrom(pos, b, walls) == pos
    decreases |walls|
  {
    if walls != [] {
      assert PushOut(pos, b, walls[0]) == pos;
      assert forall k :: 0 <= k < |walls[1..]| ==> walls[1..][k] == walls[k + 1];
      ClampIgnoresClearAndDiagonalWalls(pos, b, walls[1..]);
    }
  }

  /** Against one axis-aligned wall it overlaps, the corrected fixture no longer overlaps it. */
  lemma ClampClearsSingleWall(pos: Point3D, f: Fixture, w: Wall, trig: real -> Trig)
    requires OverlapsWall(BoundsAt(f, pos, trig), GetWallBounds(w))
    requires GetWallBounds(w).isVertical || GetWallBounds(w).isHorizontal
    ensures !OverlapsWall(BoundsAt(f, ClampedPosition(pos, f, [w], trig), trig), GetWallBounds(w))
  {
    var b := BoundsAt(f, pos, trig);
    var wb := GetWallBounds(w);
    assert [w][1..] == [];
    assert ClampFrom(pos, b, [w]) == ClampFrom(PushOut(pos, b, w), b, []);
    var p := ClampedPosition(pos, f, [w], trig);
    assert p == PushOut(pos, b, w);
    var nb := BoundsAt(f, p, trig);
    assert nb.width == b.width && nb.depth == b.depth;
  }

  /** `clampToWallBounds`: the source's loop, mutating `newPosition`. */
  method ClampToWallBounds(position: Point3D, fixture: Fixture, walls: seq<Wall>, trig: real -> Trig)
    returns (newPosition: Point3D)
    ensures newPosition == ClampedPosition(position, fixture, walls, trig)
  {
    var bounds := BoundsAt(fixture, position, trig);
    newPosition := position;
    for i := 0 to |walls|
      invariant ClampFrom(newPosition, bounds, walls[i..]) == ClampFrom(position, bounds, walls)
    {
      assert walls[i..][0] == walls[i];
      assert walls[i..][1..] == walls[i + 1..];
      ghost var before := newPosition;
      var wallBounds := GetWallBounds(walls[i]);
      if wallBounds.isVertical {
        var xOverlap := bounds.maxX > wallBounds.minX && bounds.minX < wallBounds.maxX;
        var zOverlap := bounds.maxZ > wallBounds.minZ && bounds.minZ < wallBounds.maxZ;
        if xOverlap && zOverlap {
          var pushLeft := wallBounds.minX - bounds.maxX;
          var pushRight := wallBounds.maxX - bounds.minX;
          if Abs(pushLeft) < Abs(pushRight) {
            newPosition := newPosition.(x := newPosition.x + (pushLeft - PUSH_MARGIN));
          } else {
            newPosition := newPosition.(x := newPosition.x + (pushRight + PUSH_MARGIN));
          }
        }
      }
      if wallBounds.isHorizontal {
        var xOverlap := bounds.maxX > wallBounds.minX && bounds.minX < wallBounds.maxX;
        var zOverlap := bounds.maxZ > wallBounds.minZ && bounds.minZ < wallBounds.maxZ;
        if xOverlap && zOverlap {
          var pushFront := wallBounds.minZ - bounds.maxZ;
          var pushBack := wallBounds.maxZ - bounds.minZ;
          if Abs(pushFront) < Abs(pushBack) {
            newPosition := newPosition.(z := newPosition.z + (pushFront - PUSH_MARGIN));
          } else {
            newPosition := newPosition.(z := newPosition.z + (pushBack + PUSH_MARGIN));
          }
        }
      }
      assert newPosition == PushOut(before, bounds, walls[i]);
    }
  }
}
