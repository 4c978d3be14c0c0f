/** The worker's shared key-value cache (a disk cache object in the source):
    each entry holds a value, an optional tag and an expiry in seconds. Expiry
    is only carried as a number; entries are never timed out here. */
module CacheStore {
  import opened Wrappers
  import opened Values

  datatype Entry = Entry(value: Value, tag: Option<string>, expire: int)

  class Cache {
    var entries: map<string, Entry>

    constructor ()
      ensures entries == map[]
    {
      entries := map[];
    }

    /** `cache.get(key, default)`. */
    function Get(key: string, default: Value := VNone): (v: Value)
      reads this
      ensures key in entries ==> v == entries[key].value
      ensures key !in entries ==> v == default
    {
      if key in entries then entries[key].value else default
    }

    /** `cache.pop(key, default)`: returns the stored value (or `default`)
        and removes the entry. */
    method Pop(key: string, default: Value := VNone) returns (v: Value)
      modifies this
      ensures v == old(Get(key, default))
      ensures entries == old(entries) - {key}
    {
      v := Get(key, default);
      entries := entries - {key};
    }

    /** `cache.set(key, value, tag=tag, expire=expire)`: creates or refreshes
        the entry for `key`. */
    method Set(key: string, value: Value, tag: Option<string>, expire: int)
      modifies this
      ensures entries == old(entries)[key := Entry(value, tag, expire)]
    {
      entries := entries[key := Entry(value, tag, expire)];
    }
  }
}
