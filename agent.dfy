/** The agent lifecycle of `stockworks/engine/agents/agent.py`: a per-instance
    TTL cache, the cache-then-rate-limit-then-fetch pipeline and the `process`
    boundary that turns every outcome into an envelope.

    Time is an integer number of ticks (milliseconds) supplied by the caller.
    The implementation hooks `_fetch_data` and `_process_data` are oracles held
    in a `Hooks` value; the fetch oracle is told the instant it is called at. */
module Agents {
  import opened Results
  import opened RateLimiting

  type Key = string

  /** A fetched or transformed record (a Python `Dict[str, Any]`); the
      lifecycle only ever asks whether it is empty. */
  type Record = map<string, string>

  const TicksPerSecond := 1000

  /** The default `cache_duration` of `Agent.__init__`, in seconds. */
  const DefaultCacheDurationSeconds := 300

  /** Python's truth test on a record: an empty dict is falsy. */
  predicate Falsy(r: Record) {
    r == map[]
  }

  /** `{"timestamp": …, "data": …}` */
  datatype CacheEntry = CacheEntry(timestamp: int, data: Record)

  type Cache = map<Key, CacheEntry>

  /** What a hook returns: a value, or an exception (derived from
      `Exception`) whose `str(e)` is the error. */
  type Outcome<T> = Result<T, string>

  /** The implementation-specific operations a concrete agent supplies. */
  datatype Hooks = Hooks(fetch: (Key, int) -> Outcome<Record>, transform: Record -> Outcome<Record>)

  /** The dictionary `process` returns. The constructor is its `status`:
      'success' carries `data`, 'error' carries `error`; both carry a
      `timestamp`. */
  datatype Envelope =
    | SuccessEnvelope(timestamp: int, data: Record)
    | ErrorEnvelope(timestamp: int, error: string)

  /** `_get_from_cache(key)` at instant `now`: the cached data when the key is
      present and its entry is strictly younger than `duration`, else `None`. */
  function CacheLookup(cache: Cache, key: Key, now: int, duration: int): (r: Option<Record>)
    ensures r.Some? <==> key in cache && now - cache[key].timestamp < duration
    ensures r.Some? ==> r.value == cache[key].data
  {
    if key !in cache then None
    else
      var entry := cache[key];
      if now - entry.timestamp < duration then Some(entry.data) else None
  }

  /** What one call of `fetch_with_retry` produces and leaves behind:
      `missed` says whether the rate limiter was acquired and the fetch hook
      called; `finished` is the instant the call completes. */
  datatype FetchRun = FetchRun(result: Outcome<Record>, finished: int, missed: bool, cache: Cache, lastCallTime: int)

  /** `fetch_with_retry(key)` at instant `now`, on the agent state `cache` and
      the limiter's `lastCallTime`. */
  function RunFetch(cache: Cache, lastCallTime: int, duration: int, interval: Positive,
                    fetch: (Key, int) -> Outcome<Record>, key: Key, now: int): FetchRun
  {
    var cached := CacheLookup(cache, key, now, duration);
    if cached.Some? && !Falsy(cached.value) then
      FetchRun(Success(cached.value), now, false, cache, lastCallTime)
    else
      var t := CompletionTime(lastCallTime, interval, now);
      var fetched := fetch(key, t);
      var cache' := if fetched.Success? then cache[key := CacheEntry(t, fetched.value)] else cache;
      FetchRun(fetched, t, true, cache', t)
  }

  /** The envelope `process` builds from a `fetch_with_retry` run. */
  function Wrap(run: FetchRun, transform: Record -> Outcome<Record>): Envelope {
    match run.result
    case Failure(m) => ErrorEnvelope(run.finished, m)
    case Success(data) =>
      match transform(data)
      case Success(processed) => SuccessEnvelope(run.finished, processed)
      case Failure(m) => ErrorEnvelope(run.finished, m)
  }

  /** The call goes past the cache exactly when the lookup misses or finds a
      falsy (empty) record; a fresh, non-empty record is returned as it is,
      with the cache, the limiter and the clock untouched. */
  lemma MissExactlyWhenNoUsableEntry(cache: Cache, lastCallTime: int, duration: int, interval: Positive,
                                     fetch: (Key, int) -> Outcome<Record>, key: Key, now: int)
    ensures var run := RunFetch(cache, lastCallTime, duration, interval, fetch, key, now);
            var cached := CacheLookup(cache, key, now, duration);
            && (run.missed <==> cached.None? || Falsy(cached.value))
            && (!run.missed ==> run == FetchRun(Success(cached.value), now, false, cache, lastCallTime))
  {
  }

  /** A fresh but empty cached record counts as a miss: the limiter is
      acquired and the fetch hook runs again. */
  lemma EmptyRecordRefetched(cache: Cache, lastCallTime: int, duration: int, interval: Positive,
                             fetch: (Key, int) -> Outcome<Record>, key: Key, now: int)
    requires key in cache && Falsy(cache[key].data) && now - cache[key].timestamp < duration
    ensures var run := RunFetch(cache, lastCallTime, duration, interval, fetch, key, now);
            run.missed && run.lastCallTime == CompletionTime(lastCallTime, interval, now)
  {
  }

  /** On a miss the limiter is acquired first and the fetch hook is called at
      the instant the acquisition completes; its outcome is the result. */
  lemma MissAcquiresThenFetches(cache: Cache, lastCallTime: int, duration: int, interval: Positive,
                                fetch: (Key, int) -> Outcome<Record>, key: Key, now: int)
    ensures var run := RunFetch(cache, lastCallTime, duration, interval, fetch, key, now);
            run.missed ==>
              && run.finished == CompletionTime(lastCallTime, interval, now)
              && run.lastCallTime == run.finished
              && run.finished >= lastCallTime + interval
              && run.result == fetch(key, run.finished)
  {
  }

  /** A successful fetch stores `{timestamp: now, data: fetched}` under the key,
      overwriting any earlier entry, and leaves every other key as it was. */
  lemma SuccessfulFetchWritesEntry(cache: Cache, lastCallTime: int, duration: int, interval: Positive,
                                   fetch: (Key, int) -> Outcome<Record>, key: Key, now: int)
    ensures var run := RunFetch(cache, lastCallTime, duration, interval, fetch, key, now);
            run.missed && run.result.Success? ==>
              && key in run.cache
              && run.cache[key] == CacheEntry(run.finished, run.result.value)
              && run.cache.Keys == cache.Keys + {key}
              && (forall k :: k in cache && k != key ==> run.cache[k] == cache[k])
  {
  }

  /** A failed fetch leaves the cache unchanged and its exception propagates
      as the result of the call. */
  lemma FailedFetchLeavesCache(cache: Cache, lastCallTime: int, duration: int, interval: Positive,
                               fetch: (Key, int) -> Outcome<Record>, key: Key, now: int)
    ensures var run := RunFetch(cache, lastCallTime, duration, interval, fetch, key, now);
            run.result.Failure? ==>
              && run.missed
              && run.cache == cache
              && run.result == fetch(key, run.finished)
  {
  }

  /** `process` raises no `Exception`: it reports success exactly when both the fetch
      and the transform succeed, carrying the transformed data; otherwise it
      reports the message of whichever of the two failed. Either envelope is
      stamped with the instant the call finished. */
  lemma ProcessEnvelopeCases(run: FetchRun, transform: Record -> Outcome<Record>)
    ensures var env := Wrap(run, transform);
            && env.timestamp == run.finished
            && (env.SuccessEnvelope? <==> run.result.Success? && transform(run.result.value).Success?)
            && (env.SuccessEnvelope? ==> env.data == transform(run.result.value).value)
            && (run.result.Failure? ==> env == ErrorEnvelope(run.finished, run.result.error))
            && (run.result.Success? && transform(run.result.value).Failure? ==>
                  env == ErrorEnvelope(run.finished, transform(run.result.value).error))
  {
  }

  /** A transform failure after a successful fetch still leaves the entry
      that fetch wrote. */
  lemma TransformFailureKeepsEntry(cache: Cache, lastCallTime: int, duration: int, interval: Positive,
                                   hooks: Hooks, key: Key, now: int)
    requires var run := RunFetch(cache, lastCallTime, duration, interval, hooks.fetch, key, now);
             run.missed && run.result.Success? && hooks.transform(run.result.value).Failure?
    ensures var run := RunFetch(cache, lastCallTime, duration, interval, hooks.fetch, key, now);
            && Wrap(run, hooks.transform).ErrorEnvelope?
            && key in run.cache && run.cache[key] == CacheEntry(run.finished, run.result.value)
  {
  }

  /** A second call within the cache duration of the entry that the first
      call returned (and left in the cache) is served from the cache with the
      same data: the fetch hook and the limiter are not used again. The data
      must be non-empty, since an empty record is fetched again. */
  lemma RepeatWithinDurationIsServedFromCache(cache: Cache, lastCallTime: int, duration: int, interval: Positive,
                                              fetch: (Key, int) -> Outcome<Record>, key: Key, now: int, later: int)
    requires var run := RunFetch(cache, lastCallTime, duration, interval, fetch, key, now);
             run.result.Success? && !Falsy(run.result.value)
    requires var run := RunFetch(cache, lastCallTime, duration, interval, fetch, key, now);
             key in run.cache && later - run.cache[key].timestamp < duration
    ensures var run := RunFetch(cache, lastCallTime, duration, interval, fetch, key, now);
            var again := RunFetch(run.cache, run.lastCallTime, duration, interval, fetch, key, later);
            && !again.missed
            && again.result == run.result
            && again.cache == run.cache
            && again.lastCallTime == run.lastCallTime
  {
    var run := RunFetch(cache, lastCallTime, duration, interval, fetch, key, now);
    assert run.cache[key].data == run.result.value by {
      MissExactlyWhenNoUsableEntry(cache, lastCallTime, duration, interval, fetch, key, now);
    }
  }

  /** A first call that fetched is served by the cache for any later call
      strictly less than one cache duration after that fetch completed. */
  lemma FetchedRecordServedUntilStale(cache: Cache, lastCallTime: int, duration: int, interval: Positive,
                                      fetch: (Key, int) -> Outcome<Record>, key: Key, now: int, later: int)
    requires var run := RunFetch(cache, lastCallTime, duration, interval, fetch, key, now);
             run.missed && run.result.Success? && !Falsy(run.result.value)
    ensures var run := RunFetch(cache, lastCallTime, duration, interval, fetch, key, now);
            var again := RunFetch(run.cache, run.lastCallTime, duration, interval, fetch, key, later);
            !again.missed <==> later - run.finished < duration
  {
  }

  /** Once an entry is as old as the cache duration (or absent), the next call
      fetches again. */
  lemma StaleEntryRefetched(cache: Cache, lastCallTime: int, duration: int, interval: Positive,
                            fetch: (Key, int) -> Outcome<Record>, key: Key, now: int)
    requires key !in cache || now - cache[key].timestamp >= duration
    ensures RunFetch(cache, lastCallTime, duration, interval, fetch, key, now).missed
  {
  }

  /** After the cache is cleared every key misses, so every call fetches. */
  lemma ClearedCacheAlwaysMisses(lastCallTime: int, duration: int, interval: Positive,
                                 fetch: (Key, int) -> Outcome<Record>, key: Key, now: int)
    ensures CacheLookup(map[], key, now, duration) == None
    ensures RunFetch(map[], lastCallTime, duration, interval, fetch, key, now).missed
  {
  }

  /** One agent instance: its own cache and its own rate limiter. The ghost
      `fetchCalls` lists every call into the fetch hook, with its instant. */
  class Agent {
    const name: string
    const cacheDuration: int
    const hooks: Hooks
    const rateLimiter: RateLimiter
    var cache: Cache
    ghost var fetchCalls: seq<(Key, int)>

    ghost predicate Valid()
      reads this, rateLimiter
    {
      rateLimiter.Valid()
    }

    /** `Agent.__init__(name, cache_duration)` at instant `now`, with an empty
        cache and a limiter of the given interval created at the same instant. */
    constructor (name: string, interval: Positive, hooks: Hooks, now: int,
                 cacheDurationSeconds: int := DefaultCacheDurationSeconds)
      ensures Valid() && fresh(rateLimiter)
      ensures this.name == name && this.hooks == hooks
      ensures cacheDuration == cacheDurationSeconds * TicksPerSecond
      ensures cache == map[] && fetchCalls == []
      ensures rateLimiter.interval == interval && rateLimiter.lastCallTime == now
      ensures rateLimiter.requests == []
    {
      this.name := name;
      this.hooks := hooks;
      cacheDuration := cacheDurationSeconds * TicksPerSecond;
      cache := map[];
      fetchCalls := [];
      rateLimiter := new RateLimiter(interval, now);
    }

    /** `_get_from_cache(key)` at instant `now`. */
    method GetFromCache(key: Key, now: int) returns (r: Option<Record>)
      ensures r == CacheLookup(cache, key, now, cacheDuration)
    {
      r := None;
      if key in cache {
        var entry := cache[key];
        if now - entry.timestamp < cacheDuration {
          r := Some(entry.data);
        }
      }
    }

    /** `_update_cache(key, data)` at instant `now`. */
    method UpdateCache(key: Key, data: Record, now: int)
      modifies this`cache
      ensures cache == old(cache)[key := CacheEntry(now, data)]
      ensures forall t :: now <= t < now + cacheDuration ==> CacheLookup(cache, key, t, cacheDuration) == Some(data)
    {
      cache := cache[key := CacheEntry(now, data)];
    }

    /** `_clear_cache()`: every later lookup misses until something is written. */
    method ClearCache()
      modifies this`cache
      ensures cache == map[]
      ensures forall k, t :: CacheLookup(cache, k, t, cacheDuration) == None
    {
      cache := map[];
    }

    /** `fetch_with_retry(key)` called at instant `now`; `finished` is the
        instant it completes, after any wait for the rate limiter. */
    method FetchWithRetry(key: Key, now: int) returns (result: Outcome<Record>, finished: int)
      requires Valid()
      modifies this`cache, this`fetchCalls, rateLimiter`lastCallTime, rateLimiter`requests
      ensures Valid()
      ensures var run := RunFetch(old(cache), old(rateLimiter.lastCallTime), cacheDuration,
                                  rateLimiter.interval, hooks.fetch, key, now);
              && result == run.result && finished == run.finished
              && cache == run.cache && rateLimiter.lastCallTime == run.lastCallTime
              && rateLimiter.requests == old(rateLimiter.requests) + (if run.missed then [now] else [])
              && fetchCalls == old(fetchCalls) + (if run.missed then [(key, finished)] else [])
    {
      var cached := GetFromCache(key, now);
      if cached.Some? && !Falsy(cached.value) {
        return Success(cached.value), now;
      }
      finished := rateLimiter.Acquire(now);
      result := hooks.fetch(key, finished);
      fetchCalls := fetchCalls + [(key, finished)];
      if result.Success? {
        UpdateCache(key, result.value, finished);
      }
    }

    /** `process(key)` called at instant `now`: raises no `Exception`, and
        reports every outcome as an envelope. */
    method Process(key: Key, now: int) returns (env: Envelope)
      requires Valid()
      modifies this`cache, this`fetchCalls, rateLimiter`lastCallTime, rateLimiter`requests
      ensures Valid()
      ensures var run := RunFetch(old(cache), old(rateLimiter.lastCallTime), cacheDuration,
                                  rateLimiter.interval, hooks.fetch, key, now);
              && env == Wrap(run, hooks.transform)
              && cache == run.cache && rateLimiter.lastCallTime == run.lastCallTime
              && rateLimiter.requests == old(rateLimiter.requests) + (if run.missed then [now] else [])
              && fetchCalls == old(fetchCalls) + (if run.missed then [(key, run.finished)] else [])
    {
      var data, finished := FetchWithRetry(key, now);
      match data
      case Failure(m) =>
        env := ErrorEnvelope(finished, m);
      case Success(d) =>
        match hooks.transform(d)
        case Success(processed) =>
          env := SuccessEnvelope(finished, processed);
        case Failure(m) =>
          env := ErrorEnvelope(finished, m);
    }
  }

  /** The cache scenario with a 300-second duration: a record fetched for
      "AAPL" at 0 is served from the cache at 100 seconds without a new fetch
      and fetched again at 400 seconds. */
  method CacheScenario(interval: Positive)
  {
    var price: Record := map["price" := "100"];
    assert "price" in price && !Falsy(price);
    var hooks := Hooks((k: Key, t: int) => Success(price), (r: Record) => Success(r));
    var agent := new Agent("market", interval, hooks, 0 - interval as int, 300);
    var first := agent.Process("AAPL", 0);
    assert first == SuccessEnvelope(0, price);
    assert agent.fetchCalls == [("AAPL", 0)];
    assert agent.cache == map["AAPL" := CacheEntry(0, price)];
    assert CacheLookup(agent.cache, "AAPL", 100 * TicksPerSecond, agent.cacheDuration) == Some(price);
    var second := agent.Process("AAPL", 100 * TicksPerSecond);
    assert second == SuccessEnvelope(100 * TicksPerSecond, price);
    assert agent.fetchCalls == [("AAPL", 0)];
    var third := agent.Process("AAPL", 400 * TicksPerSecond);
    assert |agent.fetchCalls| == 2;
  }
}
