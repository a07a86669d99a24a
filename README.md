# Look-aside cache for the items service

A Dafny model of the item handlers in `controllers/items.go`. The service answers six
requests over items (an integer id and a name): list, get by id, search by name,
delete, create and update. A key-value cache (Redis) sits in front of a fixed item
source. Reads look in the cache first. On a miss they ask the source and store the
answer. A cache error other than "missing key" is a 500. Writes delete the keys they
make stale.

Modules, one per concern of the Go file:

- `Decimal` (decimal.dfy): `strconv.Itoa`, with a parser that inverts it. Item ids are
  matched by comparing their decimal rendering with the raw id string.
- `Text` (text.dfy): `strings.ToLower`, on ASCII letters only, and `strings.Contains`.
- `ItemSource` (source.dfy): the two-item source (`getItemsFromSource`) and its helpers.
  Each helper is a specification function (`FindById`, `Matching`) plus a loop method
  proved equal to it. `saveItemToSource` is the no-op method `SaveItemToSource`.
- `Redis` (redis.dfy): the cache client, a class whose `entries` map the methods
  `Get`, `Set` and `Del` read and update.
- `Controllers` (controllers.dfy): the keys (`items:` followed by `all`, the raw id,
  or `search:` and the raw query) and the six handlers. Each handler is a method
  over the client. It is proved equal to `Serve`, a pure function giving the response
  and the cache that follows.
- `CacheProperties` (properties.dfy): lemmas about `Serve`. They cover which keys
  exist after each request and what each branch answers. They also cover coherence:
  from an empty cache, the cache only holds what the source would answer. Finally
  they say exactly when a cached answer differs from the uncached one.

Behaviour the model follows from the code:

- The source never changes. Delete and update change only a local copy, and save
  does nothing. A create always gets id 3 (`len(source) + 1`). A list after a create
  still holds two items. A get of item 1 after deleting it still answers 200.
- Ids are never checked as numbers. A non-numeric id gives 404, not 400.
- An update answers with the body item exactly as bound, including the body's id.
- Keys collide. The id `all` has the key `items:all`, and the id `search:q` has the
  key `items:search:q`. After `GET /items`, a `GET /items/all` hits the list payload.
  Decoding a list into an item fails and leaves Go's zero item, so it answers
  200 `{"id":0,"name":""}` where the source says 404 (`ListKeyServedAsItem`,
  `ListThenGetAll`). `CacheTransparent` proves that this is the only case. With a
  coherent cache and a healthy backend, every other answer equals the uncached one.
- Search keys keep the query's case. `ONE` and `one` get separate keys for the
  same result.

## Model

| member | source | states |
|---|---|---|
| `Decimal.Digits` | controllers/items.go:216 | the rendering of a natural is a non-empty string of digits, with no leading zero unless the number is 0 |
| `Decimal.Itoa` | controllers/items.go:216 | a rendered id is non-empty, starts with `-` or a digit, and is all digits after that (so never `all` or `search:`…) |
| `Decimal.ItoaRoundTrip` | controllers/items.go:216 | parsing the rendering of any integer gives that integer back |
| `Decimal.ItoaInjective` | controllers/items.go:216 | two different ids never render to the same string |
| `Text.ContainsAt` | controllers/items.go:227 | `Contains(s, sub)` holds exactly when `sub` starts at some position of `s` |
| `Text.ToLowerIdempotent` | controllers/items.go:227 | lower-casing twice equals lower-casing once |
| `ItemSource.IndexOfId` | controllers/items.go:213-221 | the position found is the first whose id renders as the string; every earlier item differs; `|items|` when none matches |
| `ItemSource.FindById` | controllers/items.go:213-221 | an item is found iff some item's id renders exactly as the string, and the one found is in the list and matches |
| `ItemSource.GetItemFromSourceByID` | controllers/items.go:213-221 | the scan returns the first source item whose `Itoa(id)` equals the string, or nothing |
| `ItemSource.SearchItemsFromSourceByName` | controllers/items.go:223-232 | the search returns `Matching(Source(), name)` |
| `ItemSource.CollectMatching` | controllers/items.go:225-231 | the append loop builds exactly the matching items of the list, in order |
| `ItemSource.DeleteItemFromSource` | controllers/items.go:234-243 | reports true iff some source item's id renders as the string |
| `ItemSource.UpdateItemInSource` | controllers/items.go:249-258 | reports true iff some source item's id renders as the string |
| `ItemSource.FindListedItem` | controllers/items.go:213-221 | with unique ids, looking up the rendering of a listed item's id returns that item |
| `ItemSource.SourceLookup` | controllers/items.go:206-221 | in the fixed source exactly `"1"` and `"2"` are found (`"01"`, `"all"`, `"-1"` are not) |
| `ItemSource.MatchingMembers` | controllers/items.go:223-232 | an item is in the search result iff it is in the list and its lower-cased name contains the lower-cased query |
| `ItemSource.MatchingConcat` | controllers/items.go:223-232 | searching a concatenation is concatenating the searches, so the result keeps source order |
| `ItemSource.MatchingLength` | controllers/items.go:223-232 | the result is never longer than the list |
| `ItemSource.MatchingDistinct` | controllers/items.go:223-232 | a list without repeated items gives a result without repeated items |
| `ItemSource.MatchingCaseInsensitive` | controllers/items.go:227 | a query and its lower-cased form find the same items |
| `ItemSource.SearchOneExample` | controllers/items.go:206-232 | searching the source for `ONE` returns only `{1, "item one"}` |
| `ItemSource.SearchItemExample` | controllers/items.go:206-232 | searching the source for `item` returns both items, in order |
| `Redis.Client.Get` | controllers/items.go:43-53 | a backend fault gives that error; otherwise a hit with the stored value iff the key is present, the missing-key reply iff not |
| `Redis.Client.Set` | controllers/items.go:49 | the key now maps to the value; every other key is unchanged |
| `Redis.Client.Del` | controllers/items.go:145 | the key is gone; every other key is unchanged |
| `Controllers.GetItems` | controllers/items.go:39-59 | response and new cache are those `Serve` gives for the list request |
| `Controllers.GetItemsByID` | controllers/items.go:67-92 | response and new cache are those `Serve` gives for a get by id |
| `Controllers.SearchItemsByName` | controllers/items.go:100-126 | response and new cache are those `Serve` gives for a search |
| `Controllers.DeleteItem` | controllers/items.go:134-151 | response and new cache are those `Serve` gives for a delete |
| `Controllers.CreateItem` | controllers/items.go:160-173 | response and new cache are those `Serve` gives for a create |
| `Controllers.UpdatedItem` | controllers/items.go:183-203 | response and new cache are those `Serve` gives for an update |
| `CacheProperties.KeyCollisions` | controllers/items.go:69 | the key of id `all` is the list key, and the key of id `search:q` is the search key of `q` |
| `CacheProperties.SearchKeyCaseSensitive` | controllers/items.go:107 | `ONE` and `one` have different keys but the same search result |
| `CacheProperties.SearchKeyInjective` | controllers/items.go:107 | different queries have different search keys |
| `CacheProperties.RenderedIdKeyDistinct` | controllers/items.go:69 | the key of a rendered number is neither the list key nor any search key |
| `CacheProperties.Footprint` | controllers/items.go:39-203 | a request changes no key outside its own read key or the keys it deletes; writes never add keys |
| `CacheProperties.ListLookAside` | controllers/items.go:39-59 | list: a fault is a 500 with the cache unchanged; a hit answers the payload with the cache unchanged; a miss answers the source and stores it under `items:all` |
| `CacheProperties.GetLookAside` | controllers/items.go:67-92 | get by id: fault is a 500, hit answers the payload, miss answers and stores the first item whose id renders as the string, or is a 404 that stores nothing |
| `CacheProperties.SearchLookAside` | controllers/items.go:100-126 | search: an empty query is a 400 before the cache is read; then fault, hit and miss as for the list, under `items:search:<name>` |
| `CacheProperties.SearchMissResult` | controllers/items.go:110-117 | a search miss answers exactly the source items whose lower-cased name contains the lower-cased query |
| `CacheProperties.DeleteInvalidates` | controllers/items.go:134-151 | an unknown id is a 404 with the cache unchanged; otherwise a 204 removing exactly `items:<id>` and `items:all` |
| `CacheProperties.CreateInvalidates` | controllers/items.go:160-173 | a bind failure is a 400 with the cache unchanged; otherwise a 201 with id 3 and the body's name, removing exactly `items:all` |
| `CacheProperties.UpdateInvalidates` | controllers/items.go:183-203 | a bind failure is a 400, an unknown id a 404, both with the cache unchanged; otherwise a 200 with the body item, removing exactly `items:<id>` and `items:all` |
| `CacheProperties.CoherencePreserved` | controllers/items.go:39-203 | if every cached payload is what the source answers for its key, that still holds after any request |
| `CacheProperties.CacheTransparent` | controllers/items.go:39-126 | with a coherent cache and no fault, every response equals the uncached response, unless a get by id reads a present list key |
| `CacheProperties.ListKeyServedAsItem` | controllers/items.go:67-91 | with a coherent cache, a get by id that reads a present list key answers 200 with the zero item where the source answers 404 |
| `CacheProperties.ListThenGetAll` | controllers/items.go:39-91 | from an empty cache, `GET /items` and then `GET /items/all` answers 200 `{0, ""}` |
| `CacheProperties.ListCreateListScenario` | controllers/items.go:39-173 | from an empty cache, a list stores both items under `items:all`, a create answers `{3, "item three"}` and empties the cache, and a list still answers two items |
| `CacheProperties.DeleteThenGetScenario` | controllers/items.go:134-221 | deleting id `1` answers 204 and removes `items:1`, and the next get of `1` answers item 1 again and re-caches it |

## Left out

- Redis transport and expiry: the client is a map. The 10-minute `cacheDuration` is not modelled, and time does not pass.
- Backend errors on `Set` and `Del` are not modelled. The Go code ignores them, so they change only whether a key is written or deleted. A read's `Get` error is a parameter of the read.
- JSON: payloads are stored as values. Decoding a payload of the wrong shape gives Go's zero value: the item `{0, ""}`, or an empty list. The model does not distinguish a nil slice (`null`) from an empty one.
- `strings.ToLower` is modelled on ASCII letters only. Other Unicode case mappings are not modelled.
- Item ids are unbounded integers. The 64-bit width of Go's `int` is not modelled.
- The 204 answer of a delete carries the message the code passes to `c.JSON`. HTTP drops that body on the wire.
- The unused global `items`, `ctx` and `SetRedis` are wiring only. The route table in `main.go` and the generated Swagger text in `docs/docs.go` have no logic.
- Concurrency: requests are handled one at a time.
