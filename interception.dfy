/** The request interceptor's decision, as pure functions: which requests are
    handled offline, which caches are excluded, what is stored for replay and
    which of the three outcomes a request gets. */
module Interception {
  import opened Requests
  import opened CacheMaintenance

  /** A request is handled offline when its flag is exactly `true`, or when
      it is neither `true` nor `false` and `alwaysOffline` is set. */
  predicate Eligible(flag: OfflineFlag, alwaysOffline: bool)
  {
    flag.OfflineTrue? || (flag.OfflineOther? && alwaysOffline)
  }

  /** An eligible request without a cache option is given `cache: true`. */
  function WithDefaultCache(c: Config): (d: Config)
    ensures !d.cache.CacheUnset?
    ensures d == c || (c.cache.CacheUnset? && d == c.(cache := CacheTrue))
  {
    if c.cache.CacheUnset? then c.(cache := CacheTrue) else c
  }

  /** The identifier reported by the cache a (defaulted) cache option selects. */
  function SelectedCacheId(p: Policy, choice: CacheChoice): (id: Option<string>)
    requires !choice.CacheUnset?
    ensures choice.CacheTrue? ==> id == p.defaultCacheId
    ensures choice.CacheHandle? ==> id == choice.id
  {
    if choice.CacheTrue? then p.defaultCacheId else choice.id
  }

  /** A cache is excluded when it reports a non-empty identifier (a truthy
      one) and that identifier is on the exclusion list. */
  predicate Excluded(id: Option<string>, excludeCacheIds: seq<string>)
  {
    id.Some? && id.value != "" && id.value in excludeCacheIds
  }

  /** Eligible for offline handling and not using an excluded cache. */
  predicate OfflineHandled(p: Policy, c: Config)
  {
    Eligible(c.offline, p.alwaysOffline) &&
    !Excluded(SelectedCacheId(p, WithDefaultCache(c).cache), p.excludeCacheIds)
  }

  /** The record stored for a deferred request: the request's url, data,
      headers, method and offline flag, and its timeout only when it is a
      number. */
  function StoredRecord(c: Config): (r: Record)
    ensures r.url == c.url && r.data == c.data && r.headers == c.headers
    ensures r.httpMethod == c.httpMethod && r.offline == c.offline
    ensures r.timeout.Some? <==> c.timeout.TimeoutMs?
    ensures r.timeout.Some? ==> r.timeout.value == c.timeout.ms
  {
    Record(c.url, c.data, c.headers, c.httpMethod, c.offline,
           if c.timeout.TimeoutMs? then Some(c.timeout.ms) else None)
  }

  /** The request a stored record is replayed as: the record itself handed to
      the transport, so it carries no cache option. Storing it again gives
      back the same record. */
  function ConfigOf(r: Record): (c: Config)
    ensures StoredRecord(c) == r
    ensures c.cache.CacheUnset?
    ensures c.httpMethod == r.httpMethod && c.url == r.url && c.offline == r.offline
  {
    Config(r.httpMethod, r.url, r.data, r.headers, r.offline,
           if r.timeout.Some? then TimeoutMs(r.timeout.value) else NoTimeout,
           CacheUnset)
  }

  /** What the interceptor can ever put on the request stack. */
  predicate Queueable(p: Policy, r: Record)
  {
    r.httpMethod != "GET" && Eligible(r.offline, p.alwaysOffline)
  }

  /** The three outcomes of interception: hand the request on (possibly with
      its cache option defaulted), clean the entry for a key (which evicts it
      only under `Cleaned`'s condition) and then hand it on, or store a record
      and reject with REQUEST_QUEUED. */
  datatype Action =
    | PassThrough(config: Config)
    | CleanThenPass(config: Config, key: string)
    | QueueAndReject(record: Record)

  /** The interceptor's decision for request `c` under policy `p` when the
      connection is `online`. */
  function Classify(p: Policy, c: Config, online: bool): (a: Action)
    // An explicit `offline: false` is never touched, whatever the policy.
    ensures c.offline.OfflineFalse? ==> a == PassThrough(c)
    // Neither true nor false, and alwaysOffline unset: never touched.
    ensures c.offline.OfflineOther? && !p.alwaysOffline ==> a == PassThrough(c)
    // An excluded cache: handed on, with at most its cache option defaulted.
    ensures Eligible(c.offline, p.alwaysOffline) &&
            Excluded(SelectedCacheId(p, WithDefaultCache(c).cache), p.excludeCacheIds)
            ==> a == PassThrough(WithDefaultCache(c))
    // Queued exactly when handled offline, not a GET, and offline.
    ensures a.QueueAndReject? <==> OfflineHandled(p, c) && c.httpMethod != "GET" && !online
    ensures a.QueueAndReject? ==> a.record == StoredRecord(c) && Queueable(p, a.record)
    // The url's cache entry is cleaned exactly for a handled GET while online.
    ensures a.CleanThenPass? <==> OfflineHandled(p, c) && c.httpMethod == "GET" && online
    ensures a.CleanThenPass? ==> a.key == c.url
    // An eligible request handed on always carries its cache option, defaulted to `true`
    // when it was unset.
    ensures Eligible(c.offline, p.alwaysOffline) && !a.QueueAndReject? ==>
              a.config == WithDefaultCache(c)
  {
    if !Eligible(c.offline, p.alwaysOffline) then PassThrough(c)
    else
      var d := WithDefaultCache(c);
      if Excluded(SelectedCacheId(p, d.cache), p.excludeCacheIds) then PassThrough(d)
      else if d.httpMethod == "GET" then
        if online then CleanThenPass(d, d.url) else PassThrough(d)
      else if !online then QueueAndReject(StoredRecord(d))
      else PassThrough(d)
  }

  /** An interception removes a cache entry only for a request handled
      offline that is a GET sent while online, only under that request's
      url, and only when refresh is forced or the entry has expired. */
  lemma EvictionOnlyOnlineGet(p: Policy, c: Config, online: bool, cache: Cache, key: string)
    ensures var a := Classify(p, c, online);
      var after := if a.CleanThenPass? then Cleaned(cache, a.key, p.alwaysRefresh) else cache;
      (key in cache && key !in after) <==>
        (OfflineHandled(p, c) && c.httpMethod == "GET" && online && key == c.url &&
         key in cache && (p.alwaysRefresh || cache[key].isExpired))
  {
  }

  /** Whether replaying a stored record queues it again: a replay goes
      through the interceptor once more, with no cache option, so a stored
      record (handled offline, not a GET) is queued again exactly when the
      connection is down at that moment and the default cache is not
      excluded. ReplayIsIntercepted ties this to Classify. */
  predicate Requeues(p: Policy, online: bool)
  {
    !online && !Excluded(p.defaultCacheId, p.excludeCacheIds)
  }

  /** Replaying a stored record through the interceptor either queues the
      very same record again, or hands it on with `cache: true`; which of
      the two is decided by Requeues. */
  lemma ReplayIsIntercepted(p: Policy, r: Record, online: bool)
    requires Queueable(p, r)
    ensures Requeues(p, online) ==> Classify(p, ConfigOf(r), online) == QueueAndReject(r)
    ensures !Requeues(p, online) ==>
              Classify(p, ConfigOf(r), online) == PassThrough(ConfigOf(r).(cache := CacheTrue))
  {
  }

  /** What the interceptor gives back to the request pipeline: the request to
      send, or a rejection. */
  datatype Intercepted = Forward(config: Config) | Reject(error: Rejection)
}
