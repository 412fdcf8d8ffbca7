/**
 * The key-value cache the layer stores into (werkzeug's cache interface): string keys,
 * a timeout per entry, and get / set / add-if-absent / delete. Values are kept as the
 * pickled form the backend holds: metadata as its `__getstate__` text, responses as a
 * frozen snapshot.
 */
module Backend {
  import opened Wrappers
  import opened Http

  datatype Value = MetadataState(state: string) | Representation(response: ResponseValue)

  /** A stored value with the timeout, in seconds, it was written with. */
  datatype Entry = Entry(value: Value, timeout: int)

  /** `cache.get(key)`: the stored value, None when the key is absent. */
  function Lookup(entries: map<string, Entry>, key: string): (v: Option<Value>)
    ensures v.Some? <==> key in entries
    ensures v.Some? ==> entries[key].value == v.value
  {
    if key in entries then Some(entries[key].value) else None
  }

  class Cache {
    var entries: map<string, Entry>

    constructor ()
      ensures entries == map[]
    {
      entries := map[];
    }

    method Get(key: string) returns (v: Option<Value>)
      ensures v == Lookup(entries, key)
    {
      v := if key in entries then Some(entries[key].value) else None;
    }

    method Set(key: string, value: Value, timeout: int)
      modifies this
      ensures entries == old(entries)[key := Entry(value, timeout)]
    {
      entries := entries[key := Entry(value, timeout)];
    }

    /** Stores only when the key is absent; tells whether it stored. */
    method Add(key: string, value: Value, timeout: int) returns (added: bool)
      modifies this
      ensures added <==> key !in old(entries)
      ensures entries == if added then old(entries)[key := Entry(value, timeout)] else old(entries)
    {
      added := key !in entries;
      if added {
        entries := entries[key := Entry(value, timeout)];
      }
    }

    method Delete(key: string) returns (deleted: bool)
      modifies this
      ensures deleted <==> key in old(entries)
      ensures entries == old(entries) - {key}
    {
      deleted := key in entries;
      entries := entries - {key};
    }
  }
}
