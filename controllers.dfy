/**
 * The six cache-aware request handlers. Each one is a method over the cache
 * client, proved equal to `Serve`, a pure description of the response it
 * gives and the cache it leaves behind.
 */
module Controllers {
  import opened Wrappers
  import opened ItemSource
  import opened Redis

  const CachePrefix: string := "items:"

  const StatusOK := 200
  const StatusCreated := 201
  const StatusNoContent := 204
  const StatusBadRequest := 400
  const StatusNotFound := 404
  const StatusInternalServerError := 500

  /** The key of the full list. */
  function AllKey(): string {
    CachePrefix + "all"
  }

  /** The key of one item: the raw id from the path, unchecked. */
  function ItemKey(id: string): string {
    CachePrefix + id
  }

  /** The key of a search result: the raw query, not lower-cased. */
  function SearchKey(name: string): string {
    CachePrefix + "search:" + name
  }

  /** A JSON response body. */
  datatype Body =
    | ItemBody(item: Item)
    | ItemsBody(items: seq<Item>)
    | ErrorBody(error: string)
    | MessageBody(message: string)

  datatype Response = Response(status: int, body: Body)

  /** The result of binding a JSON request body to an item. */
  datatype Binding = Bound(item: Item) | BindError(message: string)

  /** The routed requests, with their path, query and body inputs. */
  datatype Request =
    | ListAll
    | GetById(id: string)
    | Search(name: string)
    | Delete(id: string)
    | Create(body: Binding)
    | Update(id: string, body: Binding)

  /** A handler's response together with the cache it leaves. */
  datatype Outcome = Outcome(resp: Response, cache: map<string, CachedValue>)

  function NotFound(): Response {
    Response(StatusNotFound, MessageBody("Item not found"))
  }

  function BackendError(message: string): Response {
    Response(StatusInternalServerError, ErrorBody(message))
  }

  /** Unmarshalling a payload into a list: an item payload leaves the list empty. */
  function DecodeItems(v: CachedValue): seq<Item> {
    match v
    case ItemsJson(xs) => xs
    case ItemJson(_) => []
  }

  /** Unmarshalling a payload into an item: a list payload leaves the zero item. */
  function DecodeItem(v: CachedValue): Item {
    match v
    case ItemJson(x) => x
    case ItemsJson(_) => Item(0, "")
  }

  // ---------------------------------------------------------------------
  // What each handler answers and leaves in the cache

  function ServeList(c: map<string, CachedValue>, fault: Option<string>): Outcome {
    var key := AllKey();
    if fault.Some? then Outcome(BackendError(fault.value), c)
    else if key in c then Outcome(Response(StatusOK, ItemsBody(DecodeItems(c[key]))), c)
    else Outcome(Response(StatusOK, ItemsBody(Source())), c[key := ItemsJson(Source())])
  }

  function ServeGet(c: map<string, CachedValue>, id: string, fault: Option<string>): Outcome {
    var key := ItemKey(id);
    if fault.Some? then Outcome(BackendError(fault.value), c)
    else if key in c then Outcome(Response(StatusOK, ItemBody(DecodeItem(c[key]))), c)
    else
      match FindById(Source(), id)
      case None => Outcome(NotFound(), c)
      case Some(x) => Outcome(Response(StatusOK, ItemBody(x)), c[key := ItemJson(x)])
  }

  function ServeSearch(c: map<string, CachedValue>, name: string, fault: Option<string>): Outcome {
    var key := SearchKey(name);
    if name == "" then Outcome(Response(StatusBadRequest, ErrorBody("Missing name query parameter")), c)
    else if fault.Some? then Outcome(BackendError(fault.value), c)
    else if key in c then Outcome(Response(StatusOK, ItemsBody(DecodeItems(c[key]))), c)
    else
      var found := Matching(Source(), name);
      Outcome(Response(StatusOK, ItemsBody(found)), c[key := ItemsJson(found)])
  }

  function ServeDelete(c: map<string, CachedValue>, id: string): Outcome {
    if FindById(Source(), id).None? then Outcome(NotFound(), c)
    else Outcome(Response(StatusNoContent, MessageBody("Item deleted")), c - {ItemKey(id)} - {AllKey()})
  }

  function ServeCreate(c: map<string, CachedValue>, body: Binding): Outcome {
    match body
    case BindError(m) => Outcome(Response(StatusBadRequest, MessageBody(m)), c)
    case Bound(x) =>
      Outcome(Response(StatusCreated, ItemBody(x.(id := |Source()| + 1))), c - {AllKey()})
  }

  function ServeUpdate(c: map<string, CachedValue>, id: string, body: Binding): Outcome {
    match body
    case BindError(m) => Outcome(Response(StatusBadRequest, MessageBody(m)), c)
    case Bound(x) =>
      if FindById(Source(), id).None? then Outcome(NotFound(), c)
      else Outcome(Response(StatusOK, ItemBody(x)), c - {ItemKey(id)} - {AllKey()})
  }

  /**
   * The response to a request and the cache afterwards. `fault` is the
   * backend error the cache read meets, if any; writes do not read the cache.
   */
  function Serve(c: map<string, CachedValue>, req: Request, fault: Option<string>): Outcome {
    match req
    case ListAll => ServeList(c, fault)
    case GetById(id) => ServeGet(c, id, fault)
    case Search(name) => ServeSearch(c, name, fault)
    case Delete(id) => ServeDelete(c, id)
    case Create(body) => ServeCreate(c, body)
    case Update(id, body) => ServeUpdate(c, id, body)
  }

  // ---------------------------------------------------------------------
  // The handlers

  /** `GetItems`. */
  method GetItems(rdb: Client, fault: Option<string>) returns (resp: Response)
    modifies rdb
    ensures Outcome(resp, rdb.entries) == Serve(old(rdb.entries), ListAll, fault)
  {
    var cacheKey := CachePrefix + "all";
    var val := rdb.Get(cacheKey, fault);
    match val
    case Nil =>
      var items := Source();
      rdb.Set(cacheKey, ItemsJson(items));
      resp := Response(StatusOK, ItemsBody(items));
    case Failed(m) =>
      resp := BackendError(m);
    case Hit(v) =>
      resp := Response(StatusOK, ItemsBody(DecodeItems(v)));
  }

  /** `GetItemsByID`. */
  method GetItemsByID(rdb: Client, id: string, fault: Option<string>) returns (resp: Response)
    modifies rdb
    ensures Outcome(resp, rdb.entries) == Serve(old(rdb.entries), GetById(id), fault)
  {
    var cacheKey := CachePrefix + id;
    var val := rdb.Get(cacheKey, fault);
    match val
    case Nil =>
      var item := GetItemFromSourceByID(id);
      if item.None? {
        return NotFound();
      }
      rdb.Set(cacheKey, ItemJson(item.value));
      resp := Response(StatusOK, ItemBody(item.value));
    case Failed(m) =>
      resp := BackendError(m);
    case Hit(v) =>
      resp := Response(StatusOK, ItemBody(DecodeItem(v)));
  }

  /** `SearchItemsByName`. */
  method SearchItemsByName(rdb: Client, name: string, fault: Option<string>) returns (resp: Response)
    modifies rdb
    ensures Outcome(resp, rdb.entries) == Serve(old(rdb.entries), Search(name), fault)
  {
    if name == "" {
      return Response(StatusBadRequest, ErrorBody("Missing name query parameter"));
    }
    var cacheKey := CachePrefix + "search:" + name;
    var val := rdb.Get(cacheKey, fault);
    match val
    case Nil =>
      var foundItems := SearchItemsFromSourceByName(name);
      rdb.Set(cacheKey, ItemsJson(foundItems));
      resp := Response(StatusOK, ItemsBody(foundItems));
    case Failed(m) =>
      resp := BackendError(m);
    case Hit(v) =>
      resp := Response(StatusOK, ItemsBody(DecodeItems(v)));
  }

  /** `DeleteItem`. */
  method DeleteItem(rdb: Client, id: string) returns (resp: Response)
    modifies rdb
    ensures Outcome(resp, rdb.entries) == Serve(old(rdb.entries), Delete(id), None)
  {
    var deleted := DeleteItemFromSource(id);
    if !deleted {
      return NotFound();
    }
    var cacheKey := CachePrefix + id;
    rdb.Del(cacheKey);
    rdb.Del(CachePrefix + "all");
    resp := Response(StatusNoContent, MessageBody("Item deleted"));
  }

  /** `CreateItem`: the new id is one more than the number of source items. */
  method CreateItem(rdb: Client, body: Binding) returns (resp: Response)
    modifies rdb
    ensures Outcome(resp, rdb.entries) == Serve(old(rdb.entries), Create(body), None)
  {
    if body.BindError? {
      return Response(StatusBadRequest, MessageBody(body.message));
    }
    var newItem := body.item.(id := |Source()| + 1);
    SaveItemToSource(newItem);
    rdb.Del(CachePrefix + "all");
    resp := Response(StatusCreated, ItemBody(newItem));
  }

  /** `UpdatedItem`: answers with the bound body item as given. */
  method UpdatedItem(rdb: Client, id: string, body: Binding) returns (resp: Response)
    modifies rdb
    ensures Outcome(resp, rdb.entries) == Serve(old(rdb.entries), Update(id, body), None)
  {
    if body.BindError? {
      return Response(StatusBadRequest, MessageBody(body.message));
    }
    var updated := UpdateItemInSource(id, body.item);
    if !updated {
      return NotFound();
    }
    var cacheKey := CachePrefix + id;
    rdb.Del(cacheKey);
    rdb.Del(CachePrefix + "all");
    resp := Response(StatusOK, ItemBody(body.item));
  }
}
