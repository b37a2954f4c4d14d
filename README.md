# angular-offline: the offline request mediator

This project models the core of `angular-offline.js`. That file is an
AngularJS service that holds mutating HTTP requests while the browser is
offline and replays them once it is online again. The model covers its four
parts.

- **Values** (`requests.dfy`, module `Requests`). These are:
  - the outgoing request (`Config`) and the record kept for replay (`Record`);
  - transport outcomes and the broadcast events;
  - the two `ERRORS` messages: `EMPTY_STACK` is `"empty stack"` and `REQUEST_QUEUED` is `"request queued"`;
  - the provider settings (`Policy`).

  The per-request `offline` option has three cases: exactly `true`, exactly `false`, or anything else. The `timeout` option is absent, a number, or anything else. The `cache` option is falsy, `true`, or a cache handle that reports an identifier.
- **Interception policy** (`interception.dfy`, module `Interception`). `Classify` is the request interceptor's decision, and it has three outcomes:
  - hand the request on, with `cache` defaulted to `true` at most;
  - clean the request url's cache entry (evicting it only when refresh is forced or it has expired), then hand the request on;
  - store a record and reject with `REQUEST_QUEUED`.

  `StoredRecord` is the record `storeRequest` builds, and `ConfigOf` is how a record is replayed.
- **Cache maintenance** (`cache_maintenance.dfy`). `Cleaned` is `clean`: the key is removed when refresh is forced or the entry's info says it has expired.
- **Request stack** (`request_stack.dfy`). `Pushed` and `Shift` describe the stack as values. `RunIsFifo` proves the first-in first-out discipline over any sequence of pushes and shifts.
- **Drain loop** (`drain.dfy`, module `DrainLoop`). `NextRequest` is one step of `processNextRequest`, and `Drain` is the whole of `offline.processStack`. Both are specification functions over an environment that answers each dispatch. The lemmas state:
  - the order of broadcasts and dispatches;
  - that no record is lost;
  - that a drain that stays online, with no re-queue and no stop message, empties the stack.
- **The service object** (`offline_service.dfy`, class `OfflineService.Offline`). It keeps these fields:
  - the stored stack;
  - the response cache;
  - the connection state;
  - a log of broadcasts;
  - a log of the records that reached the transport.

  Its methods update that state in place. Each is proved against the functions above, and `ProcessStack` is the drain as a `while` loop.

The model takes the requester passed to `offline.start` to be the `$http` service the interceptor is registered on (`angular-offline.js:266-267`). A replayed request therefore passes through the interceptor again (`angular-offline.js:221`). Suppose the connection is down at that moment and the default cache is not on the exclusion list. Then the record goes back on the stack, at the tail, not the head. The drain broadcasts an error carrying `REQUEST_QUEUED` and stops. When the default cache's identifier is excluded, the replay is handed on to the transport even while offline. `Requeues` decides between the two, and `ReplayIsIntercepted` ties it to `Classify`.

## Model

| member | source | states |
|---|---|---|
| Interception.Classify | angular-offline.js:277-326 | An explicit `offline: false`, or an unset flag without alwaysOffline, is handed on unchanged. An excluded cache is handed on with at most `cache` defaulted. The request is queued exactly when it is handled offline, is not a GET and the connection is down; then the record is the stored form of the request. The url's entry is cleaned exactly for a handled GET while online; it is evicted only under `Cleaned`'s condition. An eligible request that is handed on, excluded or not, carries its cache option, set to `true` when it was unset. |
| Interception.StoredRecord | angular-offline.js:196-205 | The record copies url, data, headers, method and offline flag. It keeps the timeout exactly when that is a number. |
| Interception.ConfigOf | angular-offline.js:221 | A record replayed as a request has no cache option and the record's method, url and flag. Storing that request gives back the same record. |
| Interception.ReplayIsIntercepted | angular-offline.js:277-326 | A replayed stored record is queued again as the very same record when `Requeues` holds. Otherwise it is handed on with `cache: true`. |
| Interception.EvictionOnlyOnlineGet | angular-offline.js:310-317 | An interception removes a cache entry exactly when the request is handled offline, is a GET, is sent while online, and the key is its url and was present and expired or refresh is forced. |
| CacheMaintenance.Cleaned | angular-offline.js:124-131 | The key survives exactly when it was present, fresh and refresh is not forced. No other key and no entry is altered. |
| CacheMaintenance.CleanedIdempotent | angular-offline.js:124-131 | Cleaning a key twice is the same as cleaning it once. |
| RequestStack.Pushed | angular-offline.js:171-175 | A push grows the stack by one. The new record is last and the earlier records are unchanged. |
| RequestStack.Shift | angular-offline.js:183-188 | A shift of a non-empty stack gives its head and leaves the rest. A shift of an empty stack gives nothing and leaves it empty. |
| RequestStack.RunIsFifo | angular-offline.js:171-188 | For any sequence of pushes and shifts, the records shifted out followed by the records left equal the initial records followed by the records pushed. |
| RequestStack.ShiftEmptyIsStable | angular-offline.js:183-188 | Any number of shifts on an empty stack take nothing and leave it empty. |
| DrainLoop.Broadcast | angular-offline.js:222-230 | A resolved dispatch is broadcast as `offline-request:success` and a rejected one as `offline-request:error`. The event carries the outcome and the record. |
| DrainLoop.NextRequest | angular-offline.js:213-231 | An empty stack yields the EMPTY_STACK error, broadcasts nothing, sends nothing to the transport, stays empty and keeps the connection state. Otherwise the head is shifted off and one event about it is broadcast. If the replay is queued again, the stack left is the rest with the head appended, nothing reaches the transport and the outcome is the REQUEST_QUEUED error. If it is not queued again, the stack left is the rest, the head reaches the transport and the outcome is the transport's. The connection state afterwards is the one reported after the dispatch. |
| DrainLoop.Drain | angular-offline.js:239-258 | An offline drain changes nothing. A drain broadcasts at most one event per record and dispatches at most one record per broadcast. |
| DrainLoop.DrainBroadcastsInOrder | angular-offline.js:239-258 | The i-th broadcast of a drain is about the i-th record of the stack. |
| DrainLoop.DrainSendsPrefix | angular-offline.js:239-258 | The records that reach the transport are a prefix of the stack, in stack order. |
| DrainLoop.DrainLeavesSuffix | angular-offline.js:239-258 | A drain leaves the undispatched suffix of the stack. After a re-queue, it leaves that suffix followed by the re-queued record. |
| DrainLoop.DrainLosesNothing | angular-offline.js:239-258 | The records left plus the records dispatched are, as a multiset, exactly the records that were there. |
| DrainLoop.DrainCalmStep | angular-offline.js:243-256 | A step that stays online and settles without a stop message dispatches the head, broadcasts its outcome and goes on with the rest. |
| DrainLoop.DrainDeliversAll | angular-offline.js:239-258 | While the connection stays up at every dispatch, with no re-queue and no stop message, a drain dispatches every record in stack order and broadcasts once per record. It ends online with an empty stack. |
| DrainLoop.DrainBroadcastsEachOutcome | angular-offline.js:239-258 | Under the same conditions, the i-th broadcast reports how the i-th record settled, so a failed dispatch is broadcast as an error and the drain goes on. |
| OfflineService.Offline.constructor | angular-offline.js:83-89 | The service starts with no stored stack and empty logs. |
| OfflineService.Offline.Stack | angular-offline.js:149-152 | Reading gives the stored array, or the empty stack when nothing is stored. |
| OfflineService.Offline.SaveStack | angular-offline.js:160-163 | Reading after saving a stack gives back that stack. |
| OfflineService.Offline.StackPush | angular-offline.js:171-175 | The stored stack becomes `Pushed` of the old one. |
| OfflineService.Offline.StackShift | angular-offline.js:183-188 | The head returned and the stack left are `Shift` of the old stack, and the stack is written back. |
| OfflineService.Offline.StoreRequest | angular-offline.js:196-205 | The stack gains exactly the stored record of the request, at the tail. |
| OfflineService.Offline.Clean | angular-offline.js:124-131 | The cache becomes `Cleaned` of the old cache for the key. |
| OfflineService.Offline.Request | angular-offline.js:277-326 | The interceptor does what `Classify` decides. Handing on changes neither stack nor cache. A clean changes only the cache. Queueing appends the record, rejects with REQUEST_QUEUED and leaves the cache alone. Only queueable records are ever on the stack. |
| OfflineService.Offline.ProcessNextRequest | angular-offline.js:213-231 | The outcome is broadcast. The new stack, logs, connection state and outcome are those of `NextRequest`. |
| OfflineService.Offline.ProcessStack | angular-offline.js:239-258 | The loop leaves the stack, connection state and logs that `Drain` describes, and keeps the cache and the invariant that only queueable records are stacked. |

## Left out

- The `connectionStatus` service (`navigator.onLine` and window listeners) is not modelled. The connection state is a field. During a drain, the environment says whether the connection is up when each replay is intercepted and after it has settled.
- The `$http` transport is not modelled: the environment supplies each dispatch's outcome.
- `$q` promises are not modelled. A drain is one sequential loop, and overlapping drains started by repeated `online` events are concurrency and are not modelled.
- `$rootScope.$broadcast` is an appended event log. `$log` debug output and the debug flag are not modelled.
- `getCache`'s resolution of `cache: true` to `$requester.defaults.cache` or the `$http` cache is not modelled. The resolved cache's identifier is `Policy.defaultCacheId`. A single map stands for whichever response cache a request selects.
- The `$cacheFactory` internals are not modelled. The stack cache is the `stored` field, and a custom `offline.stackCache` is the same field.
- The provider's setters, the module's configuration and the interceptor's registration are not modelled. The settings are the fixed `policy`.
- `offline.start` stores the requester, subscribes `processStack` to `online` events and runs one drain (`ProcessStack`); that wiring is not modelled. The model assumes `start` has run. Before it, an eligible request without a cache handle throws at `angular-offline.js:113`, because the requester is still undefined; `Classify` does not model that error.
- The requester passed to `offline.start` is assumed to be the `$http` service with this interceptor registered. A requester that bypasses the interceptor, and so never re-queues a replay, is not modelled.
- An unset `excludeCacheIds` behaves as the empty list.
- A cache identifier counts as truthy when it is a non-empty string; other identifier types are not modelled.
- A numeric timeout is an integer. Floating-point values, including NaN, are not modelled.
- Interception.Classify: the source assigns `config.cache = true` on the request object itself. The model returns the updated request instead, so aliasing of that object by the caller is not captured.
