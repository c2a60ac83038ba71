/**
 * The fixture edit panel's handlers. Each works on the selected fixture (`None` when nothing
 * is selected, in which case it makes no call) and answers with the store calls it makes.
 */
module FixtureEditPanel {
  import opened Wrappers
  import opened StoreTypes
  import opened Editor

  /** The three dimension fields an edit can name. */
  datatype DimensionKey = Width | Height | Depth

  /** The dimensions with the named field set to the new value and the others copied. */
  function WithDimension(d: Dimensions3D, key: DimensionKey, value: real): (r: Dimensions3D)
    ensures r.width == (if key == Width then value else d.width)
    ensures r.height == (if key == Height then value else d.height)
    ensures r.depth == (if key == Depth then value else d.depth)
  {
    match key
    case Width => d.(width := value)
    case Height => d.(height := value)
    case Depth => d.(depth := value)
  }

  /** Writing back the old value of a key restores the dimensions. */
  lemma WithDimensionRestores(d: Dimensions3D, key: DimensionKey, value: real)
    ensures var old_value := match key case Width => d.width case Height => d.height case Depth => d.depth;
      WithDimension(WithDimension(d, key, value), key, old_value) == d
  {
  }

  function HandleDimensionChange(fixture: Option<Fixture>, key: DimensionKey, value: real): (calls: seq<EditorCall>)
    ensures fixture.None? ==> calls == []
    ensures fixture.Some? ==>
      calls == [UpdateFixtureDimensions(fixture.value.id, WithDimension(fixture.value.dimensions, key, value))]
  {
    if fixture.None? then []
    else [UpdateFixtureDimensions(fixture.value.id, WithDimension(fixture.value.dimensions, key, value))]
  }

  function HandleStyleChange(fixture: Option<Fixture>, style: FixtureStyle): (calls: seq<EditorCall>)
    ensures fixture.None? ==> calls == []
    ensures fixture.Some? ==> calls == [UpdateFixtureStyle(fixture.value.id, style)]
  {
    if fixture.None? then [] else [UpdateFixtureStyle(fixture.value.id, style)]
  }

  // ---------------------------------------------------------------------------
  // Shelf count: clamp, then evenly spaced heights

  function Ceil(x: real): int {
    -((-x).Floor)
  }

  /** How many times `for (let i = 0; i < c; i++)` runs when `c` is any number. */
  function LoopCount(c: real): (n: nat)
    ensures c <= 0.0 ==> n == 0
    ensures c > 0.0 ==> (n - 1) as real < c <= n as real
  {
    if c <= 0.0 then 0 else Ceil(c)
  }

  /** The loop test `i < c` holds exactly for the first `LoopCount(c)` values of `i`. */
  lemma LoopBound(c: real, i: nat)
    ensures (i as real) < c <==> i < LoopCount(c)
  {
  }

  /** At a whole count the loop runs that many times. */
  lemma LoopCountOfWhole(n: nat)
    ensures LoopCount(n as real) == n
  {
    LoopBound(n as real, n);
    if n > 0 {
      LoopBound(n as real, n - 1);
    }
  }

  /** Heights `base + spacing·(i+1)` for `i` below `n`. */
  function EvenHeights(base: real, spacing: real, n: nat): seq<real> {
    seq(n, i => base + spacing * ((i + 1) as real))
  }

  /** One more step of the loop appends the next height. */
  lemma EvenHeightsSnoc(base: real, spacing: real, n: nat)
    ensures EvenHeights(base, spacing, n) + [base + spacing * ((n + 1) as real)] == EvenHeights(base, spacing, n + 1)
  {
    var longer := EvenHeights(base, spacing, n + 1);
    var appended := EvenHeights(base, spacing, n) + [base + spacing * ((n + 1) as real)];
    assert |appended| == |longer|;
    forall i | 0 <= i < |longer|
      ensures appended[i] == longer[i]
    {
    }
  }

  /** `(height − base − 0.1) / (count + 1)`: the gap between shelves, leaving 0.1 at the top. */
  function Spacing(height: real, base: real, count: real): real
    requires count >= 0.0
  {
    (height - base - 0.1) / (count + 1.0)
  }

  /**
   * With a positive gap the new shelves rise strictly, start above the base and stay below
   * the fixture's height less 0.1.
   */
  lemma EvenHeightsWithin(height: real, base: real, n: nat)
    requires Spacing(height, base, n as real) > 0.0
    ensures var hs := EvenHeights(base, Spacing(height, base, n as real), n);
      && (forall i, j :: 0 <= i < j < |hs| ==> hs[i] < hs[j])
      && (forall i :: 0 <= i < |hs| ==> base < hs[i] < height - 0.1)
  {
    var spacing := Spacing(height, base, n as real);
    var hs := EvenHeights(base, spacing, n);
    var room := height - base - 0.1;
    assert spacing * (n as real + 1.0) == room;
    forall i, j | 0 <= i < j < |hs|
      ensures hs[i] < hs[j]
    {
      assert hs[j] - hs[i] == spacing * ((j - i) as real);
      MulPositive(spacing, (j - i) as real);
    }
    forall i | 0 <= i < |hs|
      ensures base < hs[i] < height - 0.1
    {
      MulPositive(spacing, (i + 1) as real);
      assert room - spacing * ((i + 1) as real) == spacing * ((n - i) as real);
      MulPositive(spacing, (n - i) as real);
    }
  }

  lemma MulPositive(a: real, b: real)
    requires a > 0.0 && b > 0.0
    ensures a * b > 0.0
  {
  }

  /**
   * The push loop: while the pass counter is below the count, append the base plus the spacing
   * times the pass number (from 1); it yields the evenly spaced heights for every pass it makes.
   */
  method EvenlySpacedHeights(baseHeight: real, spacing: real, validCount: real) returns (newHeights: seq<real>)
    ensures newHeights == EvenHeights(baseHeight, spacing, LoopCount(validCount))
  {
    newHeights := [];
    var i: nat := 0;
    while (i as real) < validCount
      invariant i <= LoopCount(validCount)
      invariant newHeights == EvenHeights(baseHeight, spacing, i)
      decreases LoopCount(validCount) - i
    {
      LoopBound(validCount, i);
      EvenHeightsSnoc(baseHeight, spacing, i);
      newHeights := newHeights + [baseHeight + spacing * ((i + 1) as real)];
      i := i + 1;
    }
    LoopBound(validCount, i);
  }

  /** The source's clamp: the typed count limited to [1, 10] and otherwise left as typed. */
  function ClampAsWritten(count: real): (c: real)
    ensures 1.0 <= c <= 10.0
    ensures 1.0 <= count <= 10.0 ==> c == count
  {
    if count > 10.0 then 10.0 else if count < 1.0 then 1.0 else count
  }

  /** The structure the handler writes, as the source computes it. */
  function ShelfCountStructureAsWritten(s: FixtureStructure, height: real, count: real): (r: FixtureStructure)
    ensures r.shelfCount == ClampAsWritten(count) && r.baseHeight == s.baseHeight
    ensures r.shelfCount <= |r.shelfHeights| as real < r.shelfCount + 1.0
  {
    var validCount := ClampAsWritten(count);
    s.(shelfCount := validCount,
       shelfHeights := EvenHeights(s.baseHeight, Spacing(height, s.baseHeight, validCount), LoopCount(validCount)))
  }

  /**
   * A fractional count, which the number field lets through, is stored as is while the loop
   * produces one height per whole step: 2.5 gives `shelfCount` 2.5 with three heights.
   */
  lemma FractionalCountMismatch(s: FixtureStructure, height: real)
    ensures var r := ShelfCountStructureAsWritten(s, height, 2.5);
      r.shelfCount == 2.5 && |r.shelfHeights| == 3
  {
    LoopBound(2.5, 2);
    LoopBound(2.5, 3);
  }

  /**
   * The corrected clamp (see the finding on `FractionalCountMismatch`): the whole shelf count
   * in [1, 10] nearest below the typed value, and at least 1. The source does not round down.
   */
  function ClampShelfCount(count: real): (n: nat)
    ensures 1 <= n <= 10
    ensures count <= 1.0 ==> n == 1
    ensures count >= 10.0 ==> n == 10
    ensures 1.0 <= count <= 10.0 ==> n as real <= count < n as real + 1.0
  {
    var whole := count.Floor;
    if whole > 10 then 10 else if whole < 1 then 1 else whole
  }

  /** The corrected structure for a shelf-count change: the count is made whole before use. */
  function ShelfCountStructure(s: FixtureStructure, height: real, count: real): (r: FixtureStructure)
    ensures r.shelfCount == |r.shelfHeights| as real && r.baseHeight == s.baseHeight
  {
    var n := ClampShelfCount(count);
    s.(shelfCount := n as real, shelfHeights := EvenHeights(s.baseHeight, Spacing(height, s.baseHeight, n as real), n))
  }

  /**
   * After a count change the structure holds one height per shelf, a count within [1, 10]
   * (the typed count itself when it is whole and in range), the old base, and heights rising
   * strictly within the fixture whenever there is room for them.
   */
  lemma ShelfCountConsistent(s: FixtureStructure, height: real, count: real)
    ensures var r := ShelfCountStructure(s, height, count);
      && r.shelfCount == |r.shelfHeights| as real
      && 1.0 <= r.shelfCount <= 10.0
      && (count.Floor as real == count && 1.0 <= count <= 10.0 ==> r.shelfCount == count)
      && r.baseHeight == s.baseHeight
      && (Spacing(height, s.baseHeight, r.shelfCount) > 0.0 ==>
        && (forall i, j :: 0 <= i < j < |r.shelfHeights| ==> r.shelfHeights[i] < r.shelfHeights[j])
        && (forall i :: 0 <= i < |r.shelfHeights| ==> s.baseHeight < r.shelfHeights[i] < height - 0.1))
  {
    var n := ClampShelfCount(count);
    if Spacing(height, s.baseHeight, n as real) > 0.0 {
      EvenHeightsWithin(height, s.baseHeight, n);
    }
  }

  /**
   * A whole count, in range or not, is handled alike as written and corrected: only a
   * fractional count separates the two.
   */
  lemma WholeCountsAgree(s: FixtureStructure, height: real, count: real)
    requires count.Floor as real == count
    ensures ShelfCountStructureAsWritten(s, height, count) == ShelfCountStructure(s, height, count)
  {
    var n := ClampShelfCount(count);
    assert ClampAsWritten(count) == n as real;
    LoopCountOfWhole(n);
  }

  /**
   * `handleShelfCountChange` as written: the typed count is clamped but kept fractional, and
   * the push loop runs while `i < validCount` (see `FractionalCountMismatch`).
   */
  method HandleShelfCountChange(fixture: Option<Fixture>, count: real) returns (calls: seq<EditorCall>)
    ensures fixture.None? ==> calls == []
    ensures fixture.Some? ==>
      var f := fixture.value;
      calls == [UpdateFixtureStructure(f.id, ShelfCountStructureAsWritten(f.structure, f.dimensions.height, count))]
  {
    if fixture.None? {
      return [];
    }
    var f := fixture.value;
    var validCount := ClampAsWritten(count);
    var spacing := (f.dimensions.height - f.structure.baseHeight - 0.1) / (validCount + 1.0);
    var newHeights := EvenlySpacedHeights(f.structure.baseHeight, spacing, validCount);
    calls := [UpdateFixtureStructure(f.id, f.structure.(shelfCount := validCount, shelfHeights := newHeights))];
  }

  // ---------------------------------------------------------------------------
  // Base height, one shelf height, rotation, deletion

  function HandleBaseHeightChange(fixture: Option<Fixture>, baseHeight: real): (calls: seq<EditorCall>)
    ensures fixture.None? ==> calls == []
    ensures fixture.Some? ==>
      && |calls| == 1 && calls[0].UpdateFixtureStructure? && calls[0].fixtureId == fixture.value.id
      && calls[0].structure.baseHeight == baseHeight
      && calls[0].structure.shelfCount == fixture.value.structure.shelfCount
      && calls[0].structure.shelfHeights == fixture.value.structure.shelfHeights
  {
    if fixture.None? then []
    else [UpdateFixtureStructure(fixture.value.id, fixture.value.structure.(baseHeight := baseHeight))]
  }

  /** `handleShelfHeightChange`: copy the heights, overwrite one entry in place, write them back. */
  method HandleShelfHeightChange(fixture: Option<Fixture>, index: nat, height: real) returns (calls: seq<EditorCall>)
    requires fixture.Some? ==> index < |fixture.value.structure.shelfHeights|
    ensures fixture.None? ==> calls == []
    ensures fixture.Some? ==>
      var old_heights := fixture.value.structure.shelfHeights;
      && |calls| == 1 && calls[0].UpdateFixtureStructure? && calls[0].fixtureId == fixture.value.id
      && calls[0].structure.baseHeight == fixture.value.structure.baseHeight
      && calls[0].structure.shelfCount == fixture.value.structure.shelfCount
      && |calls[0].structure.shelfHeights| == |old_heights|
      && calls[0].structure.shelfHeights[index] == height
      && (forall j :: 0 <= j < |old_heights| && j != index ==> calls[0].structure.shelfHeights[j] == old_heights[j])
  {
    if fixture.None? {
      return [];
    }
    var f := fixture.value;
    var heights := f.structure.shelfHeights;
    var newHeights := new real[|heights|](j => if 0 <= j < |heights| then heights[j] else 0.0);
    newHeights[index] := height;
    calls := [UpdateFixtureStructure(f.id, f.structure.(shelfHeights := newHeights[..]))];
  }

  /** `handleRotate`, whose argument is typed `90 | -90`. */
  function HandleRotate(fixture: Option<Fixture>, degrees: int): (calls: seq<EditorCall>)
    requires degrees == 90 || degrees == -90
    ensures fixture.None? ==> calls == []
    ensures fixture.Some? ==> calls == [RotateFixture(fixture.value.id, degrees)]
  {
    if fixture.None? then [] else [RotateFixture(fixture.value.id, degrees)]
  }

  /** `handleDelete`: when confirmed, remove the fixture and then clear the selection. */
  function HandleDelete(fixture: Option<Fixture>, confirmed: bool): (calls: seq<EditorCall>)
    ensures fixture.None? || !confirmed ==> calls == []
    ensures fixture.Some? && confirmed ==> calls == [RemoveFixture(fixture.value.id), SetSelectedFixture(None)]
  {
    if fixture.None? then []
    else if confirmed then [RemoveFixture(fixture.value.id), SetSelectedFixture(None)]
    else []
  }
}
