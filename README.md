# Agent lifecycle of stockworks, modelled in Dafny

This project models the execution contract of the stockworks data-fetching
agents. It covers three parts:

- the per-agent TTL cache and the `fetch_with_retry` / `process` pipeline
  (`stockworks/engine/agents/agent.py`);
- the `RateLimiter` that spaces outbound calls (`stockworks/engine/utils.py`);
- the `AgentRegistry` that maps module names to agent classes and builds a
  fresh agent per lookup (`stockworks/engine/agents/__init__.py`).

Files:

- `results.dfy`, module `Results`: `Option` and `Result`.
- `rate_limiter.dfy`, module `RateLimiting`: the `RateLimiter` class.
  `CompletionTime` gives the instant one `acquire` completes. `Recorded` gives
  the history of `last_call_time` over a run of acquisitions.
- `agent.dfy`, module `Agents`: the `Agent` class, its cache, and the pure
  functions `CacheLookup`, `RunFetch` and `Wrap`. The methods are proved
  against these functions. `RunFetch` is what one `fetch_with_retry` call
  returns and leaves behind. `Wrap` builds the envelope of `process`.
- `registry.dfy`, module `Registry`: the `AgentRegistry` class. `LoadAll` and
  `Registered` are the functions its loading loop is proved against.

Conventions:

- Time is an integer tick count (milliseconds) that the caller passes in as
  `now`.
- `cache_duration` is given in seconds and turned into ticks.
- The limiter interval is a positive tick count. It stands for
  `1 / calls_per_second`.
- A sleep in `acquire` ends at `max(now, last_call_time + interval)`.
- The agent's two hooks are oracles held in a `Hooks` value. `_fetch_data` is
  a function of the key and the instant of the call. `_process_data` is a
  function of the record. Each returns a `Result`: a value, or a raised
  exception derived from `Exception`, carrying its `str(e)`.
- A record is a string map. Python counts an empty dict as false, so an empty
  record is "falsy".
- Module discovery is a list of module descriptions, in the order
  `pkgutil.iter_modules` visits them. Each one is a load failure or a list of
  members, in the order `inspect.getmembers` lists them. Each member is tagged
  as a non-class, an unrelated class, the base `Agent`, or a proper `Agent`
  subclass.
- The registry table keeps keys in insertion order, as a Python dict does. The
  unknown-type message therefore lists keys in the same order.

Three behaviours of the code worth noting:

- Construction sets `last_call_time` to the construction instant
  (utils.py:7). So an `acquire` issued right after construction waits one full
  interval. It does not return at once. `TwoCallsPerSecondScenario` shows both
  cases.
- `fetch_with_retry` tests the cached record with Python truthiness
  (agent.py:40). A fresh but empty cached record is therefore fetched again,
  not returned, so the staleness test alone does not decide a hit.
- `Agent.__init__` calls `RateLimiter()` with no argument (agent.py:21).
  `RateLimiter.__init__` requires `calls_per_second` (utils.py:5), so that call
  would raise. The model gives the agent's constructor the limiter interval as
  a parameter instead.

## Model

| member | source | states |
|---|---|---|
| RateLimiting.CompletionTime | stockworks/engine/utils.py:12-16 | an acquisition completes no earlier than the call instant and no earlier than one interval after the last recorded call; it completes at once exactly when a full interval has already elapsed, else exactly at last + interval |
| RateLimiting.Recorded | stockworks/engine/utils.py:7-16 | the history of `last_call_time` starts at the construction instant and gains exactly one recorded instant per acquisition |
| RateLimiting.RecordedNotBeforeRequest | stockworks/engine/utils.py:12-16 | every recorded completion is at or after the instant its acquisition was requested |
| RateLimiting.RecordedSpaced | stockworks/engine/utils.py:11-16 | over any sequence of acquisitions, consecutive recorded instants, construction included, are at least one interval apart |
| RateLimiting.SpacedGap | stockworks/engine/utils.py:11-16 | in a spaced history, instants k recordings apart differ by at least k intervals |
| RateLimiting.RecordedMonotone | stockworks/engine/utils.py:10-16 | `last_call_time` never decreases across successive acquisitions |
| RateLimiting.TwoCallsPerSecondScenario | stockworks/engine/utils.py:7-16 | at two calls per second, a limiter made long before use lets the first call through and delays the second by 500 ms; one made at the instant of its first call makes that call wait 500 ms |
| RateLimiting.RateLimiter.constructor | stockworks/engine/utils.py:5-8 | the interval is stored and `last_call_time` is the construction instant, with no acquisitions yet |
| RateLimiting.RateLimiter.Acquire | stockworks/engine/utils.py:10-16 | `last_call_time` is overwritten once, with the completion instant; that instant is at least the call instant and at least one interval after the previous `last_call_time`; the spacing invariant of the whole history is kept |
| Agents.CacheLookup | stockworks/engine/agents/agent.py:24-30 | a lookup yields data exactly when the key is present and its entry's age is strictly below the cache duration, and then yields that entry's data |
| Agents.MissExactlyWhenNoUsableEntry | stockworks/engine/agents/agent.py:38-43 | `fetch_with_retry` goes past the cache exactly when the lookup misses or finds an empty record; a fresh non-empty record is returned with cache, limiter and clock untouched and no fetch |
| Agents.EmptyRecordRefetched | stockworks/engine/agents/agent.py:39-46 | a fresh but empty cached record counts as a miss: the limiter is acquired and the fetch runs again |
| Agents.MissAcquiresThenFetches | stockworks/engine/agents/agent.py:43-46 | on a miss the limiter is acquired first, and the fetch hook is called at the instant the acquisition completes; its outcome is the result |
| Agents.SuccessfulFetchWritesEntry | stockworks/engine/agents/agent.py:46-48 | after a successful fetch the key holds `{timestamp: completion instant, data: fetched}`, overwriting any earlier entry; the key set grows by that key only and every other entry is unchanged |
| Agents.FailedFetchLeavesCache | stockworks/engine/agents/agent.py:45-51 | a failed result only comes from a fetch that was attempted; the cache is unchanged and the fetch's exception is the result |
| Agents.ProcessEnvelopeCases | stockworks/engine/agents/agent.py:53-68 | for every `Exception` a hook raises, `process` returns an envelope stamped with the finishing instant; it is 'success' exactly when both fetch and transform succeed, carrying the transformed data, and otherwise 'error' carrying the message of whichever step failed |
| Agents.TransformFailureKeepsEntry | stockworks/engine/agents/agent.py:46-68 | when the transform fails after a successful fetch, the envelope is an error and the entry that fetch wrote remains |
| Agents.RepeatWithinDurationIsServedFromCache | stockworks/engine/agents/agent.py:24-48 | a second call within the cache duration of the entry a successful non-empty first call left behind is served from the cache, with the same data, no fetch and no limiter use |
| Agents.FetchedRecordServedUntilStale | stockworks/engine/agents/agent.py:24-48 | after a fetch of a non-empty record, a later call is a cache hit exactly when it comes strictly less than one cache duration after that fetch completed |
| Agents.StaleEntryRefetched | stockworks/engine/agents/agent.py:24-46 | an absent entry or one at least one cache duration old causes a new fetch |
| Agents.ClearedCacheAlwaysMisses | stockworks/engine/agents/agent.py:35-36 | on an empty cache every lookup misses and every call fetches |
| Agents.Agent.constructor | stockworks/engine/agents/agent.py:17-22 | a new agent has the given name, the cache duration in ticks (300 seconds by default), an empty cache and its own new limiter |
| Agents.Agent.GetFromCache | stockworks/engine/agents/agent.py:24-30 | returns exactly what `CacheLookup` gives for the agent's cache and duration |
| Agents.Agent.UpdateCache | stockworks/engine/agents/agent.py:32-33 | the key's entry is replaced by `{timestamp: now, data}` and nothing else changes; lookups of that key within one duration return the data |
| Agents.Agent.ClearCache | stockworks/engine/agents/agent.py:35-36 | the cache becomes empty, so every later lookup misses |
| Agents.Agent.FetchWithRetry | stockworks/engine/agents/agent.py:38-51 | result, finishing instant, new cache and new limiter state are those of `RunFetch` on the old state; the limiter and the fetch hook are used exactly when the call misses |
| Agents.Agent.Process | stockworks/engine/agents/agent.py:53-68 | the envelope is `Wrap` of the `fetch_with_retry` run, and the state changes are those of that run |
| Registry.LastAgentClassExists | stockworks/engine/agents/__init__.py:23-27 | a module contributes an entry exactly when one of its members is a proper `Agent` subclass |
| Registry.LastAgentClassIsLastSubclass | stockworks/engine/agents/__init__.py:23-27 | the class a module contributes is one of its proper `Agent` subclasses, never the base class nor a non-`Agent` member, and no proper subclass comes after it |
| Registry.RegisterMembersEffect | stockworks/engine/agents/__init__.py:23-27 | a module's members change only the entry keyed by the module's name, which ends up holding the module's last proper subclass; a module without one changes nothing |
| Registry.InsertWellFormed | stockworks/engine/agents/__init__.py:27 | a dict assignment keeps the key order free of repeats and equal to the set of stored keys |
| Registry.LoadAllWellFormed | stockworks/engine/agents/__init__.py:19-27 | loading any modules keeps the table an ordered dict: no key twice, and the order lists exactly the stored keys |
| Registry.RegisterMembersIgnoresNames | stockworks/engine/agents/__init__.py:23-27 | member names play no part in registration: two member lists with the same kinds register the same entries, because the key is the module name |
| Registry.LoadModuleOrder | stockworks/engine/agents/__init__.py:26-27 | a module that registers under a new key appends that key to the order; any other module, including one that overwrites an existing key, leaves the order unchanged |
| Registry.LoadAllExtendsOrder | stockworks/engine/agents/__init__.py:19-27 | loading only appends keys: the order before loading is a prefix of the order after it |
| Registry.LoadAllAppend | stockworks/engine/agents/__init__.py:19-39 | loading two lists of modules one after the other is loading their concatenation |
| Registry.FailedModuleSkipped | stockworks/engine/agents/__init__.py:19-39 | inserting a module that fails to load with an `Exception` anywhere in the list leaves the registered table exactly as without it; the modules after it are still loaded |
| Registry.RegisteredKeys | stockworks/engine/agents/__init__.py:19-27 | a key is registered exactly when it was already present or it is the name of a loaded module that has a proper `Agent` subclass, so keys are module names and never class names |
| Registry.OtherModulesKeepEntry | stockworks/engine/agents/__init__.py:19-27 | modules that do not register under a key leave that key's entry and its presence unchanged |
| Registry.LastRegistrationWins | stockworks/engine/agents/__init__.py:19-27 | the entry under a key is the last proper subclass of the last loaded module with that name that has one; later registrations overwrite earlier ones |
| Registry.UnknownAgentType.Message | stockworks/engine/agents/__init__.py:43-44 | the message is "Unknown agent type: ", then the requested key, then ". Available agents: " and the keys of `agents.order` joined by ", " in that order |
| Registry.Join | stockworks/engine/agents/__init__.py:43 | joining no keys gives the empty string, one key gives that key, and n keys give their total length plus n - 1 separators |
| Registry.JoinAppend | stockworks/engine/agents/__init__.py:43 | joining a concatenation of two non-empty lists is joining each and putting one separator between them |
| Registry.JoinPartAt | stockworks/engine/agents/__init__.py:43 | the i-th key appears in the joined text, in order, right after the i keys before it and i separators |
| Registry.AgentRegistry.constructor | stockworks/engine/agents/__init__.py:12-14 | a new registry holds exactly the table that loading the modules into an empty table gives, and that table is well formed |
| Registry.AgentRegistry.LoadAgents | stockworks/engine/agents/__init__.py:16-39 | the nested loops leave the table that `LoadAll` gives on the old table and the module list, and keep it well formed |
| Registry.AgentRegistry.GetAgent | stockworks/engine/agents/__init__.py:41-45 | an unknown key fails with the key and all registered keys in order and constructs nothing; a registered key yields a newly allocated agent of that class with an empty cache and its own new limiter; the registry is unchanged |
| Registry.AgentRegistry.AvailableAgents | stockworks/engine/agents/__init__.py:47-50 | returns a value copy of the table, which lists exactly the registered keys; the registry is unchanged and no later change to the copy can reach it |
| Registry.IndependentInstances | stockworks/engine/agents/__init__.py:41-45 | two lookups of one key give two distinct agents with distinct limiters; writing to the first one's cache leaves the second one's empty |

The spec functions `RunFetch`, `Wrap`, `Insert` (the dict assignment of
agents/__init__.py:27, where an existing key keeps its place),
`LastAgentClass` (the class a module's member loop leaves behind),
`RegisterMembers`, `LoadModule`, `LoadAll` and `Registered` have no contract
of their own. The lemmas and
methods above state their meaning. `Agents.CacheScenario` is a client of
`Agent`. It works through the 300-second cache scenario for "AAPL": a fetch at
0, a cache hit at 100 seconds, and a new fetch at 400 seconds.

## Left out

- Agents.Agent.Process: only exceptions derived from `Exception` are
  modelled, as `Failure` of a hook's `Result` and as `LoadFailure` of a
  module. `process`, `fetch_with_retry` and `_load_agents` catch only
  `Exception` (agent.py:49, 62; agents/__init__.py:38). Cancellation
  (`asyncio.CancelledError`) and other `BaseException`s such as
  `KeyboardInterrupt` or `SystemExit` escape `process`, `acquire` and
  `_load_agents`. A `process` cancelled during the limiter's sleep
  (utils.py:15) or during `_fetch_data` raises instead of returning an
  envelope, and a cancelled sleep leaves `last_call_time` unwritten. A module
  that calls `sys.exit()` at import stops the whole registry build.

- The `asyncio.Lock` in `acquire` and any interleaving of concurrent `acquire`
  or `process` calls. The model has single sequential callers only. So the
  accepted race between the cache check and the cache write is not modelled.
- `datetime.now()`, `timedelta` and `asyncio.sleep`. They are replaced by the
  `now` parameter and the completion instant of `acquire`.
- RateLimiting.RateLimiter.Acquire: does not model the clock moving past
  `last + interval` while sleeping or between the two `datetime.now()` reads.
  The completion instant is exactly `max(now, last + interval)`.
- Agents.Agent.FetchWithRetry: fetch and transform take no time. On a miss,
  the cache entry and the envelope are stamped with the instant the limiter
  wait ends. On a cache hit there is no wait, and the envelope is stamped with
  the call instant `now`. The code instead reads the clock again after the
  fetch for the cache entry (agent.py:33) and after `_process_data` for the
  envelope (agent.py:59, 66).
- Agents.Record, Agents.CacheEntry: records are values. In the code the cache
  entry holds the very dict the fetch returned (agent.py:33). Both return paths
  hand out that same object (agent.py:41, 48), and `_process_data` receives it
  (agent.py:56). So if the transform returns its argument, the envelope's
  `data` is the cached dict. The model does not capture this shared identity
  or any in-place mutation through it. For example, a caller that empties
  `env['data']` empties the cached record, and the next call fetches again
  (agent.py:40). The model serves that call from the cache.
- Registry.AgentRegistry.GetAgent: construction of the registered class is
  assumed to succeed. In the code `self._agents[agent_type]()`
  (agents/__init__.py:45) raises `TypeError` for a class that keeps
  `Agent.__init__`'s required `name` parameter (agent.py:17). It also raises
  for a class that leaves one of the abstract methods of agent.py:70-80
  unimplemented. `_load_agents` registers such classes anyway, since it tests
  only `issubclass` (agents/__init__.py:24).
- The float interval `1.0 / calls_per_second`. It is a positive integer tick
  count, so non-positive rates, which Python would accept or reject by
  division by zero, are not modelled. Ticks are milliseconds, so an interval
  that is not a whole number of milliseconds has no exact value: for
  `calls_per_second = 3` the interval is 333.3 ms and must be rounded.
- The argument-less `RateLimiter()` call in `Agent.__init__`. As written it
  raises. The model passes the interval instead. The `from utils import`
  path is not modelled.
- Logging. The `logger` calls are side effects only, and the agent's `name`
  is kept only as a field.
- `importlib`, `pkgutil` and `inspect` reflection, and the updates of
  `globals()` and `__all__`. Loading is a loop over module descriptions. A
  module that fails part-way through its member loop, after some entries were
  stored, is not modelled: a module either fails to load or yields all its
  members.
- The module-level `_registry` singleton and its exported `get_agent` and
  `AVAILABLE_AGENTS`.
- The concrete `_fetch_data`, `_process_data` and `health_check`. The first
  two are oracles. `health_check` is not part of this model.
- The contents of records beyond whether they are empty, and the Python type
  of the `timestamp` value in the envelope.
