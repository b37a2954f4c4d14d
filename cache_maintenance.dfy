/** Cache maintenance on the online GET path: the entry for a key is evicted
    when the policy always refreshes, or when the cache reports it expired. */
module CacheMaintenance {
  import opened Requests

  /** A cached response with the expiry metadata the cache's `info(key)`
      reports. */
  datatype Entry = Entry(response: Response, isExpired: bool)

  type Cache = map<string, Entry>

  /** What `info(key)` reports: the entry's metadata, or nothing. */
  function Info(cache: Cache, key: string): (info: Option<Entry>)
    ensures info.Some? <==> key in cache
    ensures info.Some? ==> info.value == cache[key]
  {
    if key in cache then Some(cache[key]) else None
  }

  /** The eviction condition: always-refresh, or metadata that says expired. */
  predicate ShouldEvict(alwaysRefresh: bool, info: Option<Entry>)
  {
    alwaysRefresh || (info.Some? && info.value.isExpired)
  }

  /** The cache after cleaning `key`. */
  function Cleaned(cache: Cache, key: string, alwaysRefresh: bool): (m: Cache)
    // The key survives exactly when it was there, fresh, and refresh is not forced.
    ensures key in m <==> key in cache && !alwaysRefresh && !cache[key].isExpired
    // No other key is touched, and no entry is altered.
    ensures forall k :: k != key ==> (k in m <==> k in cache)
    ensures forall k :: k in m ==> k in cache && m[k] == cache[k]
  {
    if ShouldEvict(alwaysRefresh, Info(cache, key)) then cache - {key} else cache
  }

  /** Cleaning the same key twice is cleaning it once. */
  lemma CleanedIdempotent(cache: Cache, key: string, alwaysRefresh: bool)
    ensures Cleaned(Cleaned(cache, key, alwaysRefresh), key, alwaysRefresh)
            == Cleaned(cache, key, alwaysRefresh)
  {
    var once := Cleaned(cache, key, alwaysRefresh);
    assert key in once ==> !ShouldEvict(alwaysRefresh, Info(once, key));
  }
}
