/**
 * The backend's HTTP handlers for `stores/:storeId/layout`: each maps what the layout
 * service returns to a response.
 */
module StoresController {
  import opened Wrappers
  import opened StoresService

  /** The four fields of a row that GET and PUT send back. */
  datatype LayoutResponse = LayoutResponse(
    storeId: string,
    gridLayout: seq<seq<Option<string>>>,
    gridConfig: Option<GridConfig>,
    updatedAt: int)

  /** A 200 with a layout body, a 404 with its message, or a 204 without a body. */
  datatype HttpResponse = Ok(body: LayoutResponse) | NotFound(message: string) | NoContent

  function ResponseOf(layout: StoreLayout): LayoutResponse {
    LayoutResponse(layout.storeId, layout.gridLayout, layout.gridConfig, layout.updatedAt)
  }

  /** The GET handler's answer to what the service found. */
  function GetResponse(found: Option<StoreLayout>, storeId: string): (r: HttpResponse)
    ensures r.NotFound? <==> found.None?
    ensures r.NotFound? ==> r.message == "레이아웃을 찾을 수 없습니다: " + storeId
    ensures r.Ok? ==> r.body.gridLayout == found.value.gridLayout && r.body.gridConfig == found.value.gridConfig
                      && r.body.storeId == found.value.storeId && r.body.updatedAt == found.value.updatedAt
  {
    if found.None? then NotFound("레이아웃을 찾을 수 없습니다: " + storeId)
    else Ok(ResponseOf(found.value))
  }

  /** `GET stores/:storeId/layout`. */
  method GetLayout(service: Service, storeId: string) returns (r: HttpResponse)
    requires service.Valid()
    ensures r == GetResponse(Lookup(service.rows, storeId), storeId)
    ensures r.Ok? ==> r.body.storeId == storeId
  {
    var layout := service.GetLayout(storeId);
    if layout.None? {
      return NotFound("레이아웃을 찾을 수 없습니다: " + storeId);
    }
    return Ok(ResponseOf(layout.value));
  }

  /** `PUT stores/:storeId/layout`: save, then answer with the saved row. */
  method SaveLayout(service: Service, storeId: string, dto: UpdateLayoutDto, now: int) returns (r: HttpResponse)
    requires service.Valid()
    modifies service
    ensures service.Valid()
    ensures service.rows == Saved(old(service.rows), storeId, dto, now)
    ensures r == Ok(ResponseOf(service.rows[storeId]))
    ensures r.body.storeId == storeId && r.body.gridLayout == dto.gridLayout && r.body.updatedAt == now
  {
    var saved := service.SaveLayout(storeId, dto, now);
    r := Ok(ResponseOf(saved));
  }

  /** `DELETE stores/:storeId/layout`: 204 whether or not a row was there. */
  method DeleteLayout(service: Service, storeId: string) returns (r: HttpResponse)
    requires service.Valid()
    modifies service
    ensures service.Valid()
    ensures service.rows == old(service.rows) - {storeId}
    ensures r == NoContent
  {
    service.DeleteLayout(storeId);
    r := NoContent;
  }

  /**
   * A GET after a PUT answers with the layout just sent, under that id; a GET after a DELETE
   * answers 404; a PUT does not change what a GET of another id answers.
   */
  lemma GetAfterPut(rows: map<string, StoreLayout>, storeId: string, other: string, dto: UpdateLayoutDto, now: int)
    requires Keyed(rows)
    ensures var r := GetResponse(Lookup(Saved(rows, storeId, dto, now), storeId), storeId);
      r.Ok? && r.body.storeId == storeId && r.body.gridLayout == dto.gridLayout && r.body.updatedAt == now
    ensures other != storeId ==>
      GetResponse(Lookup(Saved(rows, storeId, dto, now), other), other) == GetResponse(Lookup(rows, other), other)
  {
    SaveSemantics(rows, storeId, dto, now);
  }

  lemma GetAfterDelete(rows: map<string, StoreLayout>, storeId: string)
    ensures GetResponse(Lookup(rows - {storeId}, storeId), storeId).NotFound?
  {
    DeleteSemantics(rows, storeId);
  }

  /** The PUT answer is the GET answer right after it. */
  lemma PutAnswersLikeGet(rows: map<string, StoreLayout>, storeId: string, dto: UpdateLayoutDto, now: int)
    requires Keyed(rows)
    ensures var after := Saved(rows, storeId, dto, now);
      GetResponse(Lookup(after, storeId), storeId) == Ok(ResponseOf(after[storeId]))
  {
  }
}
