/**
 * What the handlers guarantee about the cache: which keys exist after each
 * request, which status each branch answers, that the cache only ever holds
 * what the source would answer, and when a cached answer differs from the
 * uncached one.
 */
module CacheProperties {
  import opened Wrappers
  import opened Decimal
  import opened Text
  import opened ItemSource
  import opened Redis
  import opened Controllers

  // ---------------------------------------------------------------------
  // Keys

  /** Ids are not checked: "all" names the list's key, "search:q" a search key. */
  lemma KeyCollisions(q: string)
    ensures ItemKey("all") == AllKey()
    ensures ItemKey("search:" + q) == SearchKey(q)
  {
    assert CachePrefix + ("search:" + q) == CachePrefix + "search:" + q;
  }

  /** The query is not lower-cased in the key: "ONE" and "one" get separate keys for the same result. */
  lemma SearchKeyCaseSensitive()
    ensures SearchKey("ONE") != SearchKey("one")
    ensures Matching(Source(), "ONE") == Matching(Source(), "one")
  {
    assert SearchKey("ONE")[13] != SearchKey("one")[13];
    MatchingCaseInsensitive(Source(), "ONE");
    assert ToLower("ONE") == "one";
  }

  lemma SearchKeyInjective(a: string, b: string)
    requires SearchKey(a) == SearchKey(b)
    ensures a == b
  {
    assert a == SearchKey(a)[13..];
    assert b == SearchKey(b)[13..];
  }

  /** The key of an id that renders some number is neither the list's key nor a search key. */
  lemma RenderedIdKeyDistinct(n: int, q: string)
    ensures ItemKey(Itoa(n)) != AllKey()
    ensures ItemKey(Itoa(n)) != SearchKey(q)
  {
    var s := Itoa(n);
    assert ItemKey(s)[6] == s[0];
    assert AllKey()[6] == 'a';
    assert SearchKey(q)[6] == 's';
  }

  /** The key that a read request looks up and fills. */
  function ReadKey(req: Request): string
    requires req.ListAll? || req.GetById? || req.Search?
  {
    match req
    case ListAll => AllKey()
    case GetById(id) => ItemKey(id)
    case Search(name) => SearchKey(name)
  }

  /** The keys a request may change: its read key, or the keys a write deletes. */
  function Touched(req: Request): set<string> {
    match req
    case ListAll => {AllKey()}
    case GetById(id) => {ItemKey(id)}
    case Search(name) => {SearchKey(name)}
    case Delete(id) => {ItemKey(id), AllKey()}
    case Create(_) => {AllKey()}
    case Update(id, _) => {ItemKey(id), AllKey()}
  }

  /** Every key outside `Touched(req)` keeps its presence and value; writes never add keys. */
  lemma Footprint(c: map<string, CachedValue>, req: Request, fault: Option<string>, k: string)
    ensures var o := Serve(c, req, fault);
      k !in Touched(req) ==> (k in o.cache <==> k in c) && (k in c ==> o.cache[k] == c[k])
    ensures var o := Serve(c, req, fault);
      (req.Delete? || req.Create? || req.Update?) ==> o.cache.Keys <= c.Keys
  {
  }

  // ---------------------------------------------------------------------
  // Reads: hit, miss, backend error

  /** `GetItems`: a backend error is a 500, a hit answers the payload, a miss answers and stores the source. */
  lemma ListLookAside(c: map<string, CachedValue>, fault: Option<string>)
    ensures var o := Serve(c, ListAll, fault);
      fault.Some? ==> o == Outcome(Response(500, ErrorBody(fault.value)), c)
    ensures var o := Serve(c, ListAll, fault);
      fault.None? && AllKey() in c ==> o == Outcome(Response(200, ItemsBody(DecodeItems(c[AllKey()]))), c)
    ensures var o := Serve(c, ListAll, fault);
      fault.None? && AllKey() !in c ==>
        o.resp == Response(200, ItemsBody(Source())) && o.cache == c[AllKey() := ItemsJson(Source())]
  {
  }

  /** `GetItemsByID`: as the list, except that an id the source lacks is a 404 that stores nothing. */
  lemma GetLookAside(c: map<string, CachedValue>, id: string, fault: Option<string>)
    ensures var o := Serve(c, GetById(id), fault);
      fault.Some? ==> o == Outcome(Response(500, ErrorBody(fault.value)), c)
    ensures var o := Serve(c, GetById(id), fault);
      fault.None? && ItemKey(id) in c ==> o == Outcome(Response(200, ItemBody(DecodeItem(c[ItemKey(id)]))), c)
    ensures var o := Serve(c, GetById(id), fault);
      fault.None? && ItemKey(id) !in c && FindById(Source(), id).None? ==> o == Outcome(Response(404, MessageBody("Item not found")), c)
    ensures var o := Serve(c, GetById(id), fault);
      fault.None? && ItemKey(id) !in c && FindById(Source(), id).Some? ==>
        var x := FindById(Source(), id).value;
        Itoa(x.id) == id && o.resp == Response(200, ItemBody(x)) && o.cache == c[ItemKey(id) := ItemJson(x)]
  {
  }

  /** `SearchItemsByName`: an empty query is a 400 before the cache is read; otherwise as the list. */
  lemma SearchLookAside(c: map<string, CachedValue>, name: string, fault: Option<string>)
    ensures var o := Serve(c, Search(name), fault);
      name == "" ==> o == Outcome(Response(400, ErrorBody("Missing name query parameter")), c)
    ensures var o := Serve(c, Search(name), fault);
      name != "" && fault.Some? ==> o == Outcome(Response(500, ErrorBody(fault.value)), c)
    ensures var o := Serve(c, Search(name), fault);
      name != "" && fault.None? && SearchKey(name) in c ==>
        o == Outcome(Response(200, ItemsBody(DecodeItems(c[SearchKey(name)]))), c)
    ensures var o := Serve(c, Search(name), fault);
      name != "" && fault.None? && SearchKey(name) !in c ==>
        o.resp == Response(200, ItemsBody(Matching(Source(), name))) &&
        o.cache == c[SearchKey(name) := ItemsJson(Matching(Source(), name))]
  {
  }

  /** A miss answers exactly the source items whose lower-cased name contains the lower-cased query. */
  lemma SearchMissResult(c: map<string, CachedValue>, name: string, x: Item)
    requires name != "" && SearchKey(name) !in c
    ensures var o := Serve(c, Search(name), None);
      o.resp.status == 200 && o.resp.body.ItemsBody? &&
      (x in o.resp.body.items <==> x in Source() && Contains(ToLower(x.name), ToLower(name)))
  {
    MatchingMembers(Source(), name, x);
  }

  // ---------------------------------------------------------------------
  // Writes: which keys are removed

  /** `DeleteItem`: a 204 that removes the item's key and the list key, or a 404 that changes nothing. */
  lemma DeleteInvalidates(c: map<string, CachedValue>, id: string)
    ensures var o := Serve(c, Delete(id), None);
      FindById(Source(), id).None? ==> o == Outcome(Response(404, MessageBody("Item not found")), c)
    ensures var o := Serve(c, Delete(id), None);
      FindById(Source(), id).Some? ==>
        o.resp.status == 204 && o.cache == c - {ItemKey(id), AllKey()} &&
        ItemKey(id) !in o.cache && AllKey() !in o.cache
  {
  }

  /** `CreateItem`: a 201 with id `|Source()| + 1` and the body's name, removing only the list key. */
  lemma CreateInvalidates(c: map<string, CachedValue>, body: Binding)
    ensures var o := Serve(c, Create(body), None);
      body.BindError? ==> o == Outcome(Response(400, MessageBody(body.message)), c)
    ensures var o := Serve(c, Create(body), None);
      body.Bound? ==>
        o.resp == Response(201, ItemBody(Item(3, body.item.name))) &&
        o.cache == c - {AllKey()} && AllKey() !in o.cache
  {
  }

  /** `UpdatedItem`: a 200 echoing the body item, removing the item's key and the list key. */
  lemma UpdateInvalidates(c: map<string, CachedValue>, id: string, body: Binding)
    ensures var o := Serve(c, Update(id, body), None);
      body.BindError? ==> o == Outcome(Response(400, MessageBody(body.message)), c)
    ensures var o := Serve(c, Update(id, body), None);
      body.Bound? && FindById(Source(), id).None? ==> o == Outcome(Response(404, MessageBody("Item not found")), c)
    ensures var o := Serve(c, Update(id, body), None);
      body.Bound? && FindById(Source(), id).Some? ==>
        o.resp == Response(200, ItemBody(body.item)) &&
        o.cache == c - {ItemKey(id), AllKey()} && ItemKey(id) !in o.cache && AllKey() !in o.cache
  {
  }

  // ---------------------------------------------------------------------
  // Coherence: the cache only holds what the source answers

  const SearchPrefix: string := "items:search:"

  /** What the source answers for a key, if a handler could store anything under it. */
  function Expected(k: string): Option<CachedValue> {
    if k == AllKey() then Some(ItemsJson(Source()))
    else if HasPrefix(k, SearchPrefix) then Some(ItemsJson(Matching(Source(), k[|SearchPrefix|..])))
    else if HasPrefix(k, CachePrefix) then
      match FindById(Source(), k[|CachePrefix|..])
      case Some(x) => Some(ItemJson(x))
      case None => None
    else None
  }

  ghost predicate Coherent(c: map<string, CachedValue>) {
    forall k :: k in c ==> Expected(k) == Some(c[k])
  }

  lemma ExpectedListKey()
    ensures Expected(AllKey()) == Some(ItemsJson(Source()))
  {
  }

  lemma ExpectedSearchKey(name: string)
    ensures Expected(SearchKey(name)) == Some(ItemsJson(Matching(Source(), name)))
  {
    var k := SearchKey(name);
    assert |k| >= 13 && k[..13] == SearchPrefix;
    assert k != AllKey() by { assert k[6] != AllKey()[6]; }
    assert k[13..] == name;
  }

  lemma ExpectedItemKey(id: string)
    requires FindById(Source(), id).Some?
    ensures Expected(ItemKey(id)) == Some(ItemJson(FindById(Source(), id).value))
  {
    var x := FindById(Source(), id).value;
    var k := ItemKey(id);
    RenderedIdKeyDistinct(x.id, "");
    assert !HasPrefix(k, SearchPrefix) by {
      assert k[6] == id[0] && (id[0] == '-' || IsDigit(id[0]));
    }
    assert k[6..] == id;
  }

  /** Every handler keeps the cache coherent: starting from an empty cache it never holds a stale or wrong-shaped payload. */
  lemma CoherencePreserved(c: map<string, CachedValue>, req: Request, fault: Option<string>)
    requires Coherent(c)
    ensures Coherent(Serve(c, req, fault).cache)
  {
    match req
    case ListAll =>
      ExpectedListKey();
    case GetById(id) =>
      if FindById(Source(), id).Some? {
        ExpectedItemKey(id);
      }
    case Search(name) =>
      ExpectedSearchKey(name);
    case Delete(_) =>
    case Create(_) =>
    case Update(_, _) =>
  }

  // ---------------------------------------------------------------------
  // Transparency: when does the cache change an answer?

  /** The answer the same handlers give with no cache in front of the source. */
  function Direct(req: Request): Response {
    match req
    case ListAll => Response(StatusOK, ItemsBody(Source()))
    case GetById(id) =>
      (match FindById(Source(), id)
       case Some(x) => Response(StatusOK, ItemBody(x))
       case None => NotFound())
    case Search(name) =>
      if name == "" then Response(StatusBadRequest, ErrorBody("Missing name query parameter"))
      else Response(StatusOK, ItemsBody(Matching(Source(), name)))
    case _ => Serve(map[], req, None).resp
  }

  predicate IsListKey(k: string) {
    k == AllKey() || HasPrefix(k, SearchPrefix)
  }

  /** A get by id whose key is a list key that is present: the list payload is read as an item. */
  predicate ServesListAsItem(c: map<string, CachedValue>, req: Request) {
    req.GetById? && IsListKey(ItemKey(req.id)) && ItemKey(req.id) in c
  }

  /** With a coherent cache and a healthy backend, every answer is the uncached answer, except a list key read as an item. */
  lemma CacheTransparent(c: map<string, CachedValue>, req: Request)
    requires Coherent(c) && !ServesListAsItem(c, req)
    ensures Serve(c, req, None).resp == Direct(req)
  {
    match req
    case GetById(id) =>
      var k := ItemKey(id);
      if k in c {
        assert k[6..] == id;
        if k != AllKey() && !HasPrefix(k, SearchPrefix) {
          assert HasPrefix(k, CachePrefix);
        }
      }
    case Search(name) =>
      if name != "" && SearchKey(name) in c {
        ExpectedSearchKey(name);
      }
    case _ =>
  }

  /** The exception: `GET /items/<id>` on a present list key answers 200 with the zero item where the source says 404. */
  lemma ListKeyServedAsItem(c: map<string, CachedValue>, req: Request)
    requires Coherent(c) && ServesListAsItem(c, req)
    ensures Serve(c, req, None).resp == Response(200, ItemBody(Item(0, "")))
    ensures Direct(req) == Response(404, MessageBody("Item not found"))
  {
    var id := req.id;
    var k := ItemKey(id);
    assert k[6..] == id;
    var q := if k == AllKey() then "" else k[13..];
    if k == AllKey() {
      ExpectedListKey();
    } else {
      assert k == SearchKey(q);
      ExpectedSearchKey(q);
    }
    if FindById(Source(), id).Some? {
      RenderedIdKeyDistinct(FindById(Source(), id).value.id, q);
    }
  }

  /** After `GET /items`, `GET /items/all` hits the list key and answers the zero item. */
  lemma ListThenGetAll()
    ensures var o1 := Serve(map[], ListAll, None);
      var o2 := Serve(o1.cache, GetById("all"), None);
      o2.resp == Response(200, ItemBody(Item(0, ""))) && Direct(GetById("all")).status == 404
  {
    SourceLookup("all");
  }

  // ---------------------------------------------------------------------
  // Scenarios on an empty cache

  /** A list fills `items:all`; a create removes it; the next list refills it with the same two items. */
  lemma ListCreateListScenario()
    ensures var o1 := Serve(map[], ListAll, None);
      o1.resp == Response(200, ItemsBody([Item(1, "item one"), Item(2, "item two")])) &&
      o1.cache == map["items:all" := ItemsJson(Source())]
    ensures var o1 := Serve(map[], ListAll, None);
      var o2 := Serve(o1.cache, Create(Bound(Item(0, "item three"))), None);
      o2.resp == Response(201, ItemBody(Item(3, "item three"))) && o2.cache == map[]
    ensures var o3 := Serve(map[], ListAll, None);
      o3.resp.body == ItemsBody(Source()) && |Source()| == 2
  {
    assert AllKey() == "items:all";
    assert map["items:all" := ItemsJson(Source())] - {AllKey()} == map[];
  }

  /** Deleting item 1 answers 204, yet the next get of item 1 answers it again: the source does not change. */
  lemma DeleteThenGetScenario(c: map<string, CachedValue>)
    ensures var o1 := Serve(c, Delete("1"), None);
      var o2 := Serve(o1.cache, GetById("1"), None);
      o1.resp.status == 204 && "items:1" !in o1.cache &&
      o2.resp == Response(200, ItemBody(Item(1, "item one"))) &&
      o2.cache == o1.cache["items:1" := ItemJson(Item(1, "item one"))]
  {
    SourceLookup("1");
    assert ItemKey("1") == "items:1";
  }
}
