/** The helpers of flask_webcache/utils.py. */
module Utils {
  import opened Wrappers
  import opened Http
  import opened Backend

  /** The max-age a shared cache obeys: `s-maxage` when present, otherwise `max-age`. */
  function EffectiveMaxAge(cc: CacheControl): (age: Option<int>)
    ensures SMaxAge(cc).Some? ==> age == SMaxAge(cc)
    ensures SMaxAge(cc).None? ==> age == MaxAge(cc)
    ensures age.None? <==> SMaxAge(cc).None? && MaxAge(cc).None?
  {
    if SMaxAge(cc).Some? then SMaxAge(cc)
    else if MaxAge(cc).Some? then MaxAge(cc)
    else None
  }

  /** True for an absent value, otherwise Python's truthiness of an integer. */
  function NoneOrTruthy(v: Option<int>): (b: bool)
    ensures b <==> v.None? || v.value != 0
  {
    if v.None? then true else v.value != 0
  }

  /**
   * Add-then-get: offers `newObj` under `key` and returns whatever the cache then holds
   * there, so a value stored first by another writer wins. It never yields None: the
   * loop repeats while the read comes back empty, which in a sequential run happens at
   * most once.
   */
  method GetOrAdd(cache: Cache, key: string, newObj: Value, expirySeconds: int)
    returns (stored: Value, ghost rounds: nat)
    modifies cache
    ensures key in old(cache.entries) ==> stored == old(cache.entries)[key].value
    ensures key in old(cache.entries) ==> cache.entries == old(cache.entries)
    ensures key !in old(cache.entries) ==> stored == newObj
    ensures key !in old(cache.entries) ==> cache.entries == old(cache.entries)[key := Entry(newObj, expirySeconds)]
    ensures rounds == 1
  {
    var storedObj: Option<Value> := None;
    rounds := 0;
    while storedObj.None?
      invariant storedObj.None? ==> rounds == 0 && cache.entries == old(cache.entries)
      invariant storedObj.Some? ==> rounds == 1 && key in cache.entries
      invariant storedObj.Some? ==> storedObj.value == cache.entries[key].value
      invariant key in old(cache.entries) ==> cache.entries == old(cache.entries)
      invariant key !in old(cache.entries) && storedObj.Some? ==>
                  cache.entries == old(cache.entries)[key := Entry(newObj, expirySeconds)]
      decreases if storedObj.None? then 1 else 0
    {
      var _ := cache.Add(key, newObj, expirySeconds);
      storedObj := cache.Get(key);
      rounds := rounds + 1;
    }
    stored := storedObj.value;
  }
}
