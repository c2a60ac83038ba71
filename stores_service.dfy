/**
 * The backend's layout service: one grid layout per store id, kept in a table keyed by the
 * store id. Timestamps are supplied by the caller (`now`), standing in for the database's
 * creation and update columns.
 */
module StoresService {
  import opened Wrappers

  datatype GridConfig = GridConfig(cellSize: real, cols: int, rows: int)

  /** One `store_layouts` row. */
  datatype StoreLayout = StoreLayout(
    storeId: string,
    gridLayout: seq<seq<Option<string>>>,
    gridConfig: Option<GridConfig>,
    createdAt: int,
    updatedAt: int)

  /** The request body of a save: `gridConfig` may be left out. */
  datatype UpdateLayoutDto = UpdateLayoutDto(gridLayout: seq<seq<Option<string>>>, gridConfig: Option<GridConfig>)

  /** The row a save leaves under `storeId`, given the row found there (if any). */
  function SavedRow(found: Option<StoreLayout>, storeId: string, dto: UpdateLayoutDto, now: int): (r: StoreLayout)
    ensures r.gridLayout == dto.gridLayout && r.updatedAt == now
    ensures dto.gridConfig.Some? ==> r.gridConfig == dto.gridConfig
    ensures found.Some? ==> r.storeId == found.value.storeId && r.createdAt == found.value.createdAt
    ensures found.Some? && dto.gridConfig.None? ==> r.gridConfig == found.value.gridConfig
    ensures found.None? ==> r.storeId == storeId && r.createdAt == now && r.gridConfig == dto.gridConfig
  {
    if found.Some? then
      var layout := found.value.(gridLayout := dto.gridLayout);
      (if dto.gridConfig.Some? then layout.(gridConfig := dto.gridConfig) else layout).(updatedAt := now)
    else
      StoreLayout(storeId, dto.gridLayout, dto.gridConfig, now, now)
  }

  /** The row under an id, if the table has one. */
  function Lookup(rows: map<string, StoreLayout>, storeId: string): (r: Option<StoreLayout>)
    ensures r.None? <==> storeId !in rows
    ensures r.Some? ==> storeId in rows && r.value == rows[storeId]
  {
    if storeId in rows then Some(rows[storeId]) else None
  }

  /** The table after `saveLayout(storeId, dto)`. */
  function Saved(rows: map<string, StoreLayout>, storeId: string, dto: UpdateLayoutDto, now: int): (r: map<string, StoreLayout>)
    ensures r.Keys == rows.Keys + {storeId}
    ensures forall id :: id in rows && id != storeId ==> r[id] == rows[id]
  {
    rows[storeId := SavedRow(Lookup(rows, storeId), storeId, dto, now)]
  }

  /** Every row sits under its own store id. */
  ghost predicate Keyed(rows: map<string, StoreLayout>) {
    forall id :: id in rows ==> rows[id].storeId == id
  }

  /**
   * A save leaves a row under the id with the sent grid; the grid configuration is the sent
   * one when present, the old row's when an existing row is updated without one, and absent
   * for a new row without one. Rows under other ids and the keying are untouched.
   */
  lemma SaveSemantics(rows: map<string, StoreLayout>, storeId: string, dto: UpdateLayoutDto, now: int)
    requires Keyed(rows)
    ensures var r := Saved(rows, storeId, dto, now);
      && storeId in r && Keyed(r)
      && r[storeId].gridLayout == dto.gridLayout
      && r[storeId].updatedAt == now
      && (dto.gridConfig.Some? ==> r[storeId].gridConfig == dto.gridConfig)
      && (dto.gridConfig.None? && storeId in rows ==> r[storeId].gridConfig == rows[storeId].gridConfig)
      && (dto.gridConfig.None? && storeId !in rows ==> r[storeId].gridConfig.None?)
      && (storeId in rows ==> r[storeId].createdAt == rows[storeId].createdAt)
      && (storeId !in rows ==> r[storeId].createdAt == now)
      && (forall id :: id != storeId ==> Lookup(r, id) == Lookup(rows, id))
  {
  }

  /** Saving the same body twice at the same time is the same as saving it once. */
  lemma SaveIdempotent(rows: map<string, StoreLayout>, storeId: string, dto: UpdateLayoutDto, now: int)
    requires Keyed(rows)
    ensures Saved(Saved(rows, storeId, dto, now), storeId, dto, now) == Saved(rows, storeId, dto, now)
  {
    var once := Saved(rows, storeId, dto, now);
    assert SavedRow(Lookup(once, storeId), storeId, dto, now) == once[storeId];
  }

  /** The table after `deleteLayout(storeId)`: the row is gone, others stay, a missing id is no error. */
  lemma DeleteSemantics(rows: map<string, StoreLayout>, storeId: string)
    ensures var r := rows - {storeId};
      && Lookup(r, storeId).None?
      && (forall id :: id != storeId ==> Lookup(r, id) == Lookup(rows, id))
      && (storeId !in rows ==> r == rows)
      && (Keyed(rows) ==> Keyed(r))
  {
  }

  class Service {
    var rows: map<string, StoreLayout>

    ghost predicate Valid()
      reads this
    {
      Keyed(rows)
    }

    constructor()
      ensures rows == map[] && Valid()
    {
      rows := map[];
    }

    /** `getLayout`: the row under that id, or nothing. */
    method GetLayout(storeId: string) returns (layout: Option<StoreLayout>)
      requires Valid()
      ensures layout.None? <==> storeId !in rows
      ensures layout.Some? ==> layout.value == rows[storeId] && layout.value.storeId == storeId
    {
      if storeId in rows {
        return Some(rows[storeId]);
      }
      return None;
    }

    /** `saveLayout`: update the found row in place (grid always, configuration only if sent), or create one. */
    method SaveLayout(storeId: string, dto: UpdateLayoutDto, now: int) returns (saved: StoreLayout)
      requires Valid()
      modifies this
      ensures Valid()
      ensures rows == Saved(old(rows), storeId, dto, now)
      ensures saved == rows[storeId] && saved.storeId == storeId
    {
      var layout: StoreLayout;
      if storeId in rows {
        layout := rows[storeId];
        layout := layout.(gridLayout := dto.gridLayout);
        if dto.gridConfig.Some? {
          layout := layout.(gridConfig := dto.gridConfig);
        }
        layout := layout.(updatedAt := now);
      } else {
        layout := StoreLayout(storeId, dto.gridLayout, dto.gridConfig, now, now);
      }
      rows := rows[storeId := layout];
      saved := layout;
    }

    /** `deleteLayout`: remove the row under that id, if there is one. */
    method DeleteLayout(storeId: string)
      requires Valid()
      modifies this
      ensures Valid()
      ensures rows == old(rows) - {storeId}
    {
      rows := rows - {storeId};
    }
  }
}
