/**
 * The cache client: a key-value store of JSON payloads. Expiry is not
 * modelled, and whether a read fails is an outcome the caller supplies.
 */
module Redis {
  import opened Wrappers
  import opened ItemSource

  /** A stored JSON payload: a list of items or a single item. */
  datatype CachedValue = ItemsJson(items: seq<Item>) | ItemJson(item: Item)

  /** The result of a `GET`: the value, the "missing key" reply, or a backend error. */
  datatype Lookup = Hit(value: CachedValue) | Nil | Failed(message: string)

  class Client {
    var entries: map<string, CachedValue>

    constructor ()
      ensures entries == map[]
    {
      entries := map[];
    }

    /** `rdb.Get(key).Result()`; `fault` is the backend error, if this call meets one. */
    method Get(key: string, fault: Option<string>) returns (r: Lookup)
      ensures fault.Some? ==> r == Failed(fault.value)
      ensures fault.None? ==> (r.Hit? <==> key in entries) && (r.Nil? <==> key !in entries)
      ensures fault.None? && key in entries ==> r == Hit(entries[key])
    {
      if fault.Some? {
        r := Failed(fault.value);
      } else if key in entries {
        r := Hit(entries[key]);
      } else {
        r := Nil;
      }
    }

    /** `rdb.Set(key, value, ttl)`: stores the value under the key. */
    method Set(key: string, value: CachedValue)
      modifies this
      ensures entries == old(entries)[key := value]
    {
      entries := entries[key := value];
    }

    /** `rdb.Del(key)`: removes the key if present. */
    method Del(key: string)
      modifies this
      ensures entries == old(entries) - {key}
    {
      entries := entries - {key};
    }
  }
}
