/**
 * The store picker: a constant registry of built-in stores, a list of stores uploaded as
 * JSON files during the session, the upload validator and the merged list on screen.
 */
module StoreSelector {
  import opened Wrappers
  import opened StoreTypes
  import opened Editor

  /** One `storeRegistry` entry: the lookup key and the store. */
  datatype RegistryEntry = RegistryEntry(key: string, store: Store)

  /**
   * A parsed upload: the document read as a store, and whether the objects the validator
   * looks into are present at all. A field missing inside `meta` or `floorPlan` reads as
   * `""` or `0`, which the validator rejects exactly as it rejects the missing field.
   */
  datatype Upload = Upload(store: Store, hasMeta: bool, hasFloorPlan: bool, fixturesIsArray: bool)

  /** What the file reader delivers: a document `JSON.parse` rejected (with its message), or one it accepted. */
  datatype FileContent = Unparsable(message: string) | Parsed(upload: Upload)

  datatype UploadError = MissingIdOrName | MissingFloorPlan | MissingFixtures

  function ErrorMessage(e: UploadError): (m: string)
    ensures m != ""
  {
    match e
    case MissingIdOrName => "매장 ID와 이름이 필요합니다."
    case MissingFloorPlan => "평면도 정보(floorPlan)가 필요합니다."
    case MissingFixtures => "매대(fixtures) 배열이 필요합니다."
  }

  /** The first check: the upload names a store id and a store name. */
  predicate HasIdAndName(u: Upload) {
    u.hasMeta && u.store.meta.id != "" && u.store.meta.name != ""
  }

  /** The second check: a floor plan with a non-zero width and depth. */
  predicate HasFloorPlan(u: Upload) {
    u.hasFloorPlan && u.store.floorPlan.widthMeters != 0.0 && u.store.floorPlan.depthMeters != 0.0
  }

  /** The three checks, in order; the first that fails names the error. */
  function Validate(u: Upload): (r: Option<UploadError>)
    ensures r.None? <==> && u.hasMeta && u.store.meta.id != "" && u.store.meta.name != ""
                         && u.hasFloorPlan && u.store.floorPlan.widthMeters != 0.0
                         && u.store.floorPlan.depthMeters != 0.0 && u.fixturesIsArray
    ensures r == Some(MissingIdOrName) <==> !u.hasMeta || u.store.meta.id == "" || u.store.meta.name == ""
    ensures r == Some(MissingFloorPlan) <==> HasIdAndName(u) && !HasFloorPlan(u)
    ensures r == Some(MissingFixtures) <==> HasIdAndName(u) && HasFloorPlan(u) && !u.fixturesIsArray
  {
    if !u.hasMeta || u.store.meta.id == "" || u.store.meta.name == "" then Some(MissingIdOrName)
    else if !u.hasFloorPlan || u.store.floorPlan.widthMeters == 0.0 || u.store.floorPlan.depthMeters == 0.0 then
      Some(MissingFloorPlan)
    else if !u.fixturesIsArray then Some(MissingFixtures)
    else None
  }

  /** A store as a list row; `fixtureCount` is the number of its fixtures. */
  function ListItem(s: Store): (item: StoreListItem)
    ensures item.id == s.meta.id && item.name == s.meta.name && item.fixtureCount == |s.fixtures|
  {
    StoreListItem(s.meta.id, s.meta.name, s.meta.address, s.meta.thumbnail, |s.fixtures|, s.meta.updatedAt)
  }

  /** `getStoreList()`: the registry's stores in registry order. */
  function StoreList(registry: seq<RegistryEntry>): (items: seq<StoreListItem>)
    ensures |items| == |registry|
    ensures forall i :: 0 <= i < |registry| ==> items[i] == ListItem(registry[i].store)
  {
    seq(|registry|, i requires 0 <= i < |registry| => ListItem(registry[i].store))
  }

  /** `getStoreById(id)`: the store under that registry key. */
  function GetStoreById(registry: seq<RegistryEntry>, id: string): (r: Option<Store>)
    ensures r.None? <==> forall k :: 0 <= k < |registry| ==> registry[k].key != id
    ensures r.Some? ==> exists k :: 0 <= k < |registry| && registry[k].key == id && registry[k].store == r.value
  {
    if registry == [] then None
    else if registry[0].key == id then Some(registry[0].store)
    else
      assert forall k :: 0 < k < |registry| ==> registry[k] == registry[1..][k - 1];
      GetStoreById(registry[1..], id)
  }

  /** Index `k` holds the first uploaded store with that id. */
  ghost predicate IsFirstUpload(uploaded: seq<Store>, id: string, k: int) {
    && 0 <= k < |uploaded| && uploaded[k].meta.id == id
    && forall j :: 0 <= j < k ==> uploaded[j].meta.id != id
  }

  /** The first uploaded store, in upload order, whose id is the given one. */
  function FindUploaded(uploaded: seq<Store>, id: string): (r: Option<Store>)
    ensures r.None? <==> forall k :: 0 <= k < |uploaded| ==> uploaded[k].meta.id != id
    ensures r.Some? ==> r.value in uploaded && r.value.meta.id == id
    ensures r.Some? ==> exists k :: IsFirstUpload(uploaded, id, k) && uploaded[k] == r.value
  {
    if uploaded == [] then None
    else if uploaded[0].meta.id == id then
      assert IsFirstUpload(uploaded, id, 0);
      Some(uploaded[0])
    else
      var rest := FindUploaded(uploaded[1..], id);
      FirstUploadShift(uploaded, id);
      assert forall k :: 0 < k < |uploaded| ==> uploaded[k] == uploaded[1..][k - 1];
      rest
  }

  /** Past a first store with another id, the first match moves one place down. */
  lemma FirstUploadShift(uploaded: seq<Store>, id: string)
    requires |uploaded| > 0 && uploaded[0].meta.id != id
    ensures forall k :: IsFirstUpload(uploaded[1..], id, k) ==> IsFirstUpload(uploaded, id, k + 1)
  {
    forall k | IsFirstUpload(uploaded[1..], id, k)
      ensures IsFirstUpload(uploaded, id, k + 1)
    {
      forall j | 0 < j < k + 1
        ensures uploaded[j].meta.id != id
      {
        assert uploaded[j] == uploaded[1..][j - 1];
      }
    }
  }

  /** `handleSelect`: an uploaded store first, then the registry; an unknown id does nothing. */
  function SelectCalls(uploaded: seq<Store>, registry: seq<RegistryEntry>, storeId: string): (calls: seq<EditorCall>)
    ensures calls == [] <==> UnknownId(uploaded, registry, storeId)
    ensures calls != [] ==> |calls| == 2 && calls[0].LoadStore? && calls[1] == StoreSelected(storeId)
  {
    var fromUpload := FindUploaded(uploaded, storeId);
    if fromUpload.Some? then [LoadStore(fromUpload.value), StoreSelected(storeId)]
    else
      var fromRegistry := GetStoreById(registry, storeId);
      if fromRegistry.Some? then [LoadStore(fromRegistry.value), StoreSelected(storeId)] else []
  }

  /** Neither an uploaded store nor a registry key has this id. */
  predicate UnknownId(uploaded: seq<Store>, registry: seq<RegistryEntry>, storeId: string) {
    && (forall k :: 0 <= k < |uploaded| ==> uploaded[k].meta.id != storeId)
    && (forall k :: 0 <= k < |registry| ==> registry[k].key != storeId)
  }

  /**
   * Selecting loads a store carrying that id when one was uploaded, else the registry's;
   * it loads nothing when neither knows the id.
   */
  lemma SelectPrefersUpload(uploaded: seq<Store>, registry: seq<RegistryEntry>, storeId: string)
    ensures var calls := SelectCalls(uploaded, registry, storeId);
      && ((exists k :: 0 <= k < |uploaded| && uploaded[k].meta.id == storeId) ==>
        calls[0].LoadStore? && calls[0].store in uploaded && calls[0].store.meta.id == storeId)
      && ((forall k :: 0 <= k < |uploaded| ==> uploaded[k].meta.id != storeId) ==>
        calls == (if GetStoreById(registry, storeId).Some?
                  then [LoadStore(GetStoreById(registry, storeId).value), StoreSelected(storeId)] else []))
      && (UnknownId(uploaded, registry, storeId) ==> calls == [])
  {
  }

  /** Every id the picker already shows: the registry's stores, then the uploaded ones. */
  function ExistingIds(registry: seq<RegistryEntry>, uploaded: seq<Store>): (ids: seq<string>)
    ensures |ids| == |registry| + |uploaded|
    ensures forall i :: 0 <= i < |registry| ==> ids[i] == registry[i].store.meta.id
    ensures forall i :: 0 <= i < |uploaded| ==> ids[|registry| + i] == uploaded[i].meta.id
  {
    seq(|registry|, i requires 0 <= i < |registry| => registry[i].store.meta.id)
      + seq(|uploaded|, i requires 0 <= i < |uploaded| => uploaded[i].meta.id)
  }

  /** The uploaded list with every store of the new store's id replaced by it, in place. */
  function ReplaceById(uploaded: seq<Store>, s: Store): (r: seq<Store>)
    ensures |r| == |uploaded|
    ensures forall i :: 0 <= i < |r| ==> r[i] == (if uploaded[i].meta.id == s.meta.id then s else uploaded[i])
  {
    seq(|uploaded|, i requires 0 <= i < |uploaded| => if uploaded[i].meta.id == s.meta.id then s else uploaded[i])
  }

  /** The uploaded list after an accepted upload: replace same-id entries if the id is known, else append. */
  function Upserted(registry: seq<RegistryEntry>, uploaded: seq<Store>, s: Store): (r: seq<Store>)
    ensures |uploaded| <= |r| <= |uploaded| + 1
    ensures forall i :: 0 <= i < |uploaded| && uploaded[i].meta.id != s.meta.id ==> r[i] == uploaded[i]
  {
    if s.meta.id in ExistingIds(registry, uploaded) then ReplaceById(uploaded, s) else uploaded + [s]
  }

  /**
   * An upload whose id is new is appended and is then what selecting that id loads; one whose
   * id an upload already has replaces every such entry, keeping the length; one whose id
   * only a built-in store has leaves the uploaded list as it was.
   */
  lemma UpsertCases(registry: seq<RegistryEntry>, uploaded: seq<Store>, s: Store)
    ensures var ids := ExistingIds(registry, uploaded);
      var r := Upserted(registry, uploaded, s);
      && (s.meta.id !in ids ==> r == uploaded + [s] && FindUploaded(r, s.meta.id) == Some(s))
      && ((exists k :: 0 <= k < |uploaded| && uploaded[k].meta.id == s.meta.id) ==>
        |r| == |uploaded| && FindUploaded(r, s.meta.id) == Some(s))
      && ((forall k :: 0 <= k < |uploaded| ==> uploaded[k].meta.id != s.meta.id) && s.meta.id in ids ==>
        r == uploaded)
  {
    var ids := ExistingIds(registry, uploaded);
    var r := Upserted(registry, uploaded, s);
    if s.meta.id !in ids {
      assert forall k :: 0 <= k < |uploaded| ==> uploaded[k].meta.id == ids[|registry| + k];
      FindAppended(uploaded, s);
    } else if exists k :: 0 <= k < |uploaded| && uploaded[k].meta.id == s.meta.id {
      FindReplaced(uploaded, s);
    } else {
      assert ReplaceById(uploaded, s) == uploaded;
    }
  }

  lemma {:induction false} FindAppended(uploaded: seq<Store>, s: Store)
    requires forall k :: 0 <= k < |uploaded| ==> uploaded[k].meta.id != s.meta.id
    ensures FindUploaded(uploaded + [s], s.meta.id) == Some(s)
  {
    if uploaded != [] {
      assert (uploaded + [s])[1..] == uploaded[1..] + [s];
      FindAppended(uploaded[1..], s);
    }
  }

  lemma {:induction false} FindReplaced(uploaded: seq<Store>, s: Store)
    requires exists k :: 0 <= k < |uploaded| && uploaded[k].meta.id == s.meta.id
    ensures FindUploaded(ReplaceById(uploaded, s), s.meta.id) == Some(s)
  {
    if uploaded[0].meta.id != s.meta.id {
      var k :| 0 <= k < |uploaded| && uploaded[k].meta.id == s.meta.id;
      assert uploaded[1..][k - 1] == uploaded[k];
      assert ReplaceById(uploaded, s)[1..] == ReplaceById(uploaded[1..], s);
      FindReplaced(uploaded[1..], s);
    }
  }

  /** The picker's state. */
  class Selector {
    const registry: seq<RegistryEntry>
    var uploadedStores: seq<Store>
    var error: Option<string>

    constructor(registry: seq<RegistryEntry>)
      ensures this.registry == registry && uploadedStores == [] && error == None
    {
      this.registry := registry;
      uploadedStores := [];
      error := None;
    }

    /** `allStores`: the registry's rows followed by one row per uploaded store. */
    function AllStores(): (items: seq<StoreListItem>)
      reads this
      ensures |items| == |registry| + |uploadedStores|
      ensures items[..|registry|] == StoreList(registry)
      ensures forall i :: 0 <= i < |uploadedStores| ==> items[|registry| + i] == ListItem(uploadedStores[i])
    {
      StoreList(registry) + seq(|uploadedStores|, i reads this requires 0 <= i < |uploadedStores| => ListItem(uploadedStores[i]))
    }

    method HandleSelect(storeId: string) returns (calls: seq<EditorCall>)
      ensures calls == SelectCalls(uploadedStores, registry, storeId)
    {
      var uploadedStore := FindUploaded(uploadedStores, storeId);
      if uploadedStore.Some? {
        return [LoadStore(uploadedStore.value), StoreSelected(storeId)];
      }
      var store := GetStoreById(registry, storeId);
      if store.Some? {
        return [LoadStore(store.value), StoreSelected(storeId)];
      }
      return [];
    }

    /**
     * `handleFileUpload` with its reader callback run to completion. Without a file nothing
     * happens. A rejected file sets the error and keeps the list; an accepted one clears the
     * error, is upserted into the list, loaded and reported as selected.
     */
    method HandleFileUpload(file: Option<FileContent>) returns (calls: seq<EditorCall>)
      modifies this
      ensures file.None? ==> calls == [] && error == old(error) && uploadedStores == old(uploadedStores)
      ensures file.Some? && file.value.Unparsable? ==>
        calls == [] && error == Some(file.value.message) && uploadedStores == old(uploadedStores)
      ensures file.Some? && file.value.Parsed? && Validate(file.value.upload).Some? ==>
        && calls == [] && uploadedStores == old(uploadedStores)
        && error == Some(ErrorMessage(Validate(file.value.upload).value))
      ensures file.Some? && file.value.Parsed? && Validate(file.value.upload).None? ==>
        var s := file.value.upload.store;
        && calls == [LoadStore(s), StoreSelected(s.meta.id)]
        && error == None
        && uploadedStores == Upserted(registry, old(uploadedStores), s)
    {
      if file.None? {
        return [];
      }
      error := None;
      match file.value
      case Unparsable(message) =>
        error := Some(message);
        return [];
      case Parsed(upload) =>
        var check := Validate(upload);
        if check.Some? {
          error := Some(ErrorMessage(check.value));
          return [];
        }
        var storeData := upload.store;
        var existingIds := ExistingIds(registry, uploadedStores);
        if storeData.meta.id in existingIds {
          uploadedStores := ReplaceById(uploadedStores, storeData);
        } else {
          uploadedStores := uploadedStores + [storeData];
        }
        calls := [LoadStore(storeData), StoreSelected(storeData.meta.id)];
    }
  }
}
