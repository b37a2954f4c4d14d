/** The offline service as an object: the request stack's storage, the
    response cache, the connection state, and logs of what was broadcast and
    of what was replayed to the transport. Each operation updates them in
    place and is proved against the specification functions of the other
    modules. */
module OfflineService {
  import opened Requests
  import opened Interception
  import opened CacheMaintenance
  import opened RequestStack
  import opened DrainLoop

  class Offline {
    const policy: Policy

    /** Whether the connection is up, as the reachability service reports it. */
    var online: bool

    /** The array stored under the key "stack" of the stack cache
        ("offline-request-stack"), None while unset. */
    var stored: Option<seq<Record>>

    /** The response cache the requests select. */
    var cache: Cache

    /** Every broadcast on the root scope, oldest first. */
    var events: seq<Event>

    /** Every replayed request that reached the transport, oldest first. */
    var replayed: seq<Record>

    /** The request stack: the stored array, or the empty one when nothing
        is stored. */
    function Stack(): (s: seq<Record>)
      reads this`stored
      ensures stored.Some? ==> s == stored.value
      ensures stored.None? ==> s == []
    {
      if stored.Some? then stored.value else []
    }

    /** Only requests the interceptor defers are ever on the stack. */
    ghost predicate Valid()
      reads this`stored
    {
      forall r | r in Stack() :: Queueable(policy, r)
    }

    constructor (policy: Policy, online: bool, cache: Cache)
      ensures this.policy == policy && this.online == online && this.cache == cache
      ensures stored == None && events == [] && replayed == []
      ensures Valid()
    {
      this.policy := policy;
      this.online := online;
      this.cache := cache;
      stored := None;
      events := [];
      replayed := [];
    }

    /** Writes the whole stack back; reading it gives it back. */
    method SaveStack(s: seq<Record>)
      modifies this`stored
      ensures stored == Some(s) && Stack() == s
    {
      stored := Some(s);
    }

    method StackPush(r: Record)
      modifies this`stored
      ensures Stack() == Pushed(old(Stack()), r) && stored.Some?
    {
      var s := Stack();
      s := s + [r];
      SaveStack(s);
    }

    /** Takes the head off the stack; on an empty stack gives nothing and
        stores the empty stack. */
    method StackShift() returns (head: Option<Record>)
      modifies this`stored
      ensures head == Shift(old(Stack())).head && Stack() == Shift(old(Stack())).rest
      ensures stored.Some?
    {
      var s := Stack();
      if s == [] {
        head := None;
      } else {
        head := Some(s[0]);
        s := s[1..];
      }
      SaveStack(s);
    }

    method StoreRequest(c: Config)
      modifies this`stored
      ensures Stack() == old(Stack()) + [StoredRecord(c)]
    {
      StackPush(StoredRecord(c));
    }

    method Clean(key: string)
      modifies this`cache
      ensures cache == Cleaned(old(cache), key, policy.alwaysRefresh)
    {
      var info := Info(cache, key);
      if policy.alwaysRefresh || (info.Some? && info.value.isExpired) {
        cache := cache - {key};
      }
    }

    /** The request interceptor. */
    method Request(c: Config) returns (res: Intercepted)
      requires Valid()
      modifies this`stored, this`cache
      ensures Valid()
      ensures match Classify(policy, c, online)
        case PassThrough(d) =>
          res == Forward(d) && stored == old(stored) && cache == old(cache)
        case CleanThenPass(d, key) =>
          res == Forward(d) && stored == old(stored) &&
          cache == Cleaned(old(cache), key, policy.alwaysRefresh)
        case QueueAndReject(r) =>
          res == Reject(Error(REQUEST_QUEUED)) && Stack() == old(Stack()) + [r] &&
          cache == old(cache)
    {
      if c.offline.OfflineFalse? {
        return Forward(c);
      }
      if !c.offline.OfflineTrue? && !policy.alwaysOffline {
        return Forward(c);
      }
      var config := c;
      if config.cache.CacheUnset? {
        config := config.(cache := CacheTrue);
      }
      var cacheKey := SelectedCacheId(policy, config.cache);
      if cacheKey.Some? && cacheKey.value != "" && cacheKey.value in policy.excludeCacheIds {
        return Forward(config);
      }
      if config.httpMethod == "GET" {
        if online {
          Clean(config.url);
        }
        return Forward(config);
      }
      if !online {
        StoreRequest(config);
        return Reject(Error(REQUEST_QUEUED));
      }
      return Forward(config);
    }

    /** Shifts one record and dispatches it: through the interceptor first,
        which may queue it again, then to the transport, whose answer comes
        from `reply`; the outcome is broadcast. */
    method ProcessNextRequest(reply: Reply) returns (out: Outcome)
      requires Valid()
      modifies this`stored, this`cache, this`events, this`replayed, this`online
      ensures Valid() && cache == old(cache)
      ensures var st := NextRequest(policy, old(Stack()), old(online), reply);
        out == st.outcome && Stack() == st.stack && online == st.online &&
        events == old(events) + st.events && replayed == old(replayed) + st.replayed
    {
      var head := StackShift();
      if head.None? {
        return Rejected(Error(EMPTY_STACK));
      }
      var request := head.value;
      online := reply.reachableAtSend;
      ReplayIsIntercepted(policy, request, online);
      var sent := Request(ConfigOf(request));
      if sent.Forward? {
        replayed := replayed + [request];
        out := reply.outcome;
      } else {
        out := Rejected(sent.error);
      }
      events := events + [Broadcast(out, request)];
      online := reply.reachableAfter;
    }

    /** Drains the stack while online; the environment answers the k-th
        dispatch with `env(k)`. */
    method ProcessStack(env: Environment)
      requires Valid()
      modifies this`stored, this`cache, this`events, this`replayed, this`online
      ensures Valid() && cache == old(cache)
      ensures var d := Drain(policy, old(Stack()), old(online), env, 0);
        Stack() == d.stack && online == d.online &&
        events == old(events) + d.events && replayed == old(replayed) + d.replayed
    {
      ghost var s0 := Stack();
      ghost var on0 := online;
      ghost var whole := Drain(policy, s0, on0, env, 0);
      ghost var broadcast: seq<Event> := [];
      ghost var sent: seq<Record> := [];
      var k: nat := 0;
      while true
        invariant Valid() && cache == old(cache)
        invariant events == old(events) + broadcast && replayed == old(replayed) + sent
        invariant var d := Drain(policy, Stack(), online, env, k);
          whole == Drained(d.stack, broadcast + d.events, sent + d.replayed, d.online)
        decreases |Stack()|
      {
        if !online {
          assert broadcast + [] == broadcast && sent + [] == sent;
          assert whole == Drained(Stack(), broadcast, sent, online);
          break;
        }
        ghost var s := Stack();
        ghost var st := NextRequest(policy, s, true, env(k));
        DrainStep(policy, s, env, k);
        var out := ProcessNextRequest(env(k));
        ghost var rest := Drain(policy, st.stack, st.online, env, k + 1);
        AppendAssoc(old(events), broadcast, st.events);
        AppendAssoc(old(replayed), sent, st.replayed);
        AppendAssoc(broadcast, st.events, rest.events);
        AppendAssoc(sent, st.replayed, rest.replayed);
        broadcast := broadcast + st.events;
        sent := sent + st.replayed;
        k := k + 1;
        if StopsDrain(out) {
          assert whole == Drained(Stack(), broadcast, sent, online);
          break;
        }
      }
    }
  }

  /** Concatenation regrouped. */
  lemma AppendAssoc<T>(a: seq<T>, b: seq<T>, c: seq<T>)
    ensures (a + b) + c == a + (b + c)
  {
  }
}
