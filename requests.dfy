/** Values handled by the offline request mediator: the configuration of an
    outgoing request, the record kept for replay, transport outcomes, the
    broadcast events, the error messages and the process-wide policy. */
module Requests {

  datatype Option<T> = None | Some(value: T)

  /** The per-request `offline` option: exactly `true`, exactly `false`, or
      any other value (unset, null, a string, ...). */
  datatype OfflineFlag = OfflineTrue | OfflineFalse | OfflineOther

  /** The per-request `timeout` option: absent, a number of milliseconds, or
      some other value (a promise, for one). */
  datatype TimeoutSetting = NoTimeout | TimeoutMs(ms: int) | TimeoutOther

  /** The per-request `cache` option: a falsy value, `true` (the default
      cache), or a cache handle, of which only the identifier its `info()`
      reports matters here. */
  datatype CacheChoice = CacheUnset | CacheTrue | CacheHandle(id: Option<string>)

  /** An outgoing request as the interceptor sees it. */
  datatype Config = Config(
    httpMethod: string,
    url: string,
    data: string,
    headers: map<string, string>,
    offline: OfflineFlag,
    timeout: TimeoutSetting,
    cache: CacheChoice)

  /** A deferred request as it is kept on the request stack. */
  datatype Record = Record(
    url: string,
    data: string,
    headers: map<string, string>,
    httpMethod: string,
    offline: OfflineFlag,
    timeout: Option<int>)

  datatype Response = Response(status: int, data: string)

  /** What a rejected promise carries: an `Error` built by the mediator
      itself, or the failed response the transport rejects with (which has
      no `message`). */
  datatype Rejection = Error(message: string) | HttpError(response: Response)

  /** How a dispatched request settles. */
  datatype Outcome = Resolved(response: Response) | Rejected(error: Rejection)

  /** A broadcast on the root scope: its name and its two arguments. */
  datatype Event = Event(name: string, outcome: Outcome, request: Record)

  // The mediator's two error messages (its `ERRORS` table).
  const EMPTY_STACK := "empty stack"
  const REQUEST_QUEUED := "request queued"

  const SUCCESS_EVENT := "offline-request:success"
  const ERROR_EVENT := "offline-request:error"

  /** The provider settings, fixed before any request flows, together with
      the identifier of the cache that `cache: true` resolves to. An unset
      exclusion list is the empty list: neither excludes anything. */
  datatype Policy = Policy(
    alwaysRefresh: bool,
    alwaysOffline: bool,
    excludeCacheIds: seq<string>,
    defaultCacheId: Option<string>)
}
