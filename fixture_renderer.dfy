/** What the fixture renderer derives from a fixture before drawing it: style, colours, opacity. */
module FixtureRenderer {
  import opened Wrappers
  import opened StoreTypes

  /**
   * `getDefaultStyle`: the style assumed for data that carries none. Each style is the
   * default of exactly the types the switch lists for it.
   */
  function DefaultStyle(kind: FixtureType): (style: FixtureStyle)
    ensures style == Chilled <==> kind == Refrigerator
    ensures style == Frozen <==> kind == Freezer
    ensures style == Open <==> kind == Island || kind == Promotional
    ensures style == Standard <==> !(kind in {Refrigerator, Freezer, Island, Promotional})
  {
    match kind
    case Refrigerator => Chilled
    case Freezer => Frozen
    case Island => Open
    case Promotional => Open
    case _ => Standard
  }

  /** The fixture's stored style when it has one, else the default style of its type. */
  function EffectiveStyle(f: Fixture): (style: FixtureStyle)
    ensures f.style.Some? ==> style == f.style.value
    ensures f.style.None? ==> style == DefaultStyle(f.kind)
  {
    f.style.GetOr(DefaultStyle(f.kind))
  }

  /** Index `k` holds the first category with that id. */
  ghost predicate IsFirstWithId(categories: seq<ProductCategory>, id: string, k: int) {
    && 0 <= k < |categories| && categories[k].id == id
    && forall j :: 0 <= j < k ==> categories[j].id != id
  }

  /** The first product category, in list order, whose id is the given one. */
  function FindCategory(categories: seq<ProductCategory>, id: string): (r: Option<ProductCategory>)
    ensures r.None? <==> forall k :: 0 <= k < |categories| ==> categories[k].id != id
    ensures r.Some? ==> exists k :: IsFirstWithId(categories, id, k) && categories[k] == r.value
  {
    if categories == [] then None
    else if categories[0].id == id then
      assert IsFirstWithId(categories, id, 0);
      Some(categories[0])
    else
      var rest := FindCategory(categories[1..], id);
      FirstWithIdShift(categories, id);
      assert forall k :: 0 < k < |categories| ==> categories[k] == categories[1..][k - 1];
      rest
  }

  /** Past a first entry with another id, the first match moves one place down. */
  lemma FirstWithIdShift(categories: seq<ProductCategory>, id: string)
    requires |categories| > 0 && categories[0].id != id
    ensures forall k :: IsFirstWithId(categories[1..], id, k) ==> IsFirstWithId(categories, id, k + 1)
  {
    forall k | IsFirstWithId(categories[1..], id, k)
      ensures IsFirstWithId(categories, id, k + 1)
    {
      forall j | 0 < j < k + 1
        ensures categories[j].id != id
      {
        assert categories[j] == categories[1..][j - 1];
      }
    }
  }

  /**
   * `getCategoryColor`: nothing without a (non-empty) category id or a loaded store; otherwise
   * the colour of the first category with that id, as long as it is a non-empty string.
   */
  function CategoryColor(categoryId: Option<string>, currentStore: Option<Store>): (c: Option<string>)
    ensures !Truthy(categoryId) || currentStore.None? ==> c.None?
    ensures c.Some? ==> c.value != ""
  {
    if !Truthy(categoryId) || currentStore.None? then None
    else
      var category := FindCategory(currentStore.value.productCategories, categoryId.value);
      if category.Some? && category.value.color != "" then Some(category.value.color) else None
  }

  /** A colour is reported only for a category the store holds under the fixture's id. */
  lemma CategoryColorFound(categoryId: Option<string>, currentStore: Option<Store>)
    ensures var c := CategoryColor(categoryId, currentStore);
      && (categoryId.None? || currentStore.None? ==> c.None?)
      && (c.Some? ==>
        && c.value != ""
        && (exists k :: IsFirstWithId(currentStore.value.productCategories, categoryId.value, k)
                          && currentStore.value.productCategories[k].color == c.value))
  {
  }

  /**
   * Conversely, with a non-empty id and a loaded store, the colour is exactly that of the first
   * category with the id, or nothing when that colour is the empty string.
   */
  lemma CategoryColorOfFirst(categoryId: Option<string>, store: Store, k: int)
    requires Truthy(categoryId)
    requires IsFirstWithId(store.productCategories, categoryId.value, k)
    ensures var cat := store.productCategories[k];
      CategoryColor(categoryId, Some(store)) == if cat.color != "" then Some(cat.color) else None
  {
    var categories := store.productCategories;
    var found := FindCategory(categories, categoryId.value);
    assert found.Some?;
    var first :| IsFirstWithId(categories, categoryId.value, first) && categories[first] == found.value;
    FirstWithIdUnique(categories, categoryId.value, first, k);
  }

  /** There is only one first index with a given id. */
  lemma FirstWithIdUnique(categories: seq<ProductCategory>, id: string, k1: int, k2: int)
    requires IsFirstWithId(categories, id, k1) && IsFirstWithId(categories, id, k2)
    ensures k1 == k2
  {
  }

  /** With no category under the fixture's id there is no colour. */
  lemma CategoryColorMissing(categoryId: Option<string>, store: Store)
    requires categoryId.Some?
    requires forall k :: 0 <= k < |store.productCategories| ==> store.productCategories[k].id != categoryId.value
    ensures CategoryColor(categoryId, Some(store)).None?
  {
  }

  /** The category's colour when there is a non-empty one, else a light grey. */
  function ShelfColor(categoryColor: Option<string>): (colour: string)
    ensures colour != ""
    ensures Truthy(categoryColor) ==> colour == categoryColor.value
  {
    if Truthy(categoryColor) then categoryColor.value else "#e5e5e5"
  }

  /** The frame colour comes from the style table: the stored style's, else the type default's. */
  function FrameColor(f: Fixture): (c: string)
    ensures IsHexColour(c)
    ensures f.style.Some? ==> c == FixtureStyleColors(f.style.value).frame
    ensures f.style.None? ==> c == FixtureStyleColors(DefaultStyle(f.kind)).frame
  {
    FixtureStyleColors(EffectiveStyle(f)).frame
  }

  function Opacity(isGhosted: bool): (o: real)
    ensures 0.0 < o <= 1.0
    ensures o == 1.0 <==> !isGhosted
    ensures isGhosted ==> o == 0.3
  {
    if isGhosted then 0.3 else 1.0
  }

  /** Glass doors are drawn for the chilled and frozen styles only. */
  predicate IsChilledOrFrozen(style: FixtureStyle) {
    style == Chilled || style == Frozen
  }

  /** A refrigerator or freezer without a stored style is drawn with glass; every other type is not. */
  lemma GlassFollowsType(f: Fixture)
    requires f.style.None?
    ensures IsChilledOrFrozen(EffectiveStyle(f)) <==> f.kind == Refrigerator || f.kind == Freezer
  {
  }
}
