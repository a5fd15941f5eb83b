# KafkaRequestAPI correlation registry, in Dafny

This project models the request/response correlation core of simplesource's
`KafkaRequestAPI`. That class publishes a command request and later hands out
futures for its response.

A registry maps each request id (a UUID) to its `ResponseHandlers`:
- the futures still waiting for the response;
- the response, once it has arrived.

Four things happen to the registry:

- **publishRequest** sends the response-topic mapping, and then the request
  if the first send succeeded. When both sends succeed it inserts a fresh,
  empty entry if none exists. Whatever happened, it then sweeps the
  registry. Each entry older than the retention window is dropped, and each
  of its waiters fails with "Request timed out...".
- **queryResponse** creates a new future. For an unknown id the future fails
  with "Invalid commandId." and no entry is created. For an entry that has a
  cached response, the future completes at once with that response.
  Otherwise the future joins the entry's waiters.
- **The response handler** runs for each response delivered on the private
  response topic. It completes every waiter of that id with the response,
  then replaces the entry by one that has no waiters and caches the
  response. A response for an unknown id changes nothing.
- **Time passes.** The wall clock is a natural number that only grows.

The project has six files:

- **`wrappers.dfy`** (module `Wrappers`) holds the `Option` and `Result`
  datatypes.
- **`futures.dfy`** (module `Futures`) holds one-shot futures: a table of
  slots, each `Pending` or `Completed` once.
- **`expiring_map.dfy`** (module `ExpiringMaps`) holds the expiring map's
  contract, as functions and as a class:
  - insert-if-absent;
  - compute-if-present, assumed to keep the entry's timestamp;
  - remove-stale.
- **`correlation.dfy`** (module `Correlation`) is the registry as a state
  machine over values.
  - `State` holds the registry, the futures and the clock.
  - The specification functions `Register`, `Sweep`, `Publish`, `Query`,
    `Dispatch`, `Step` and `Run` describe each operation.
  - The invariant `WellFormed` says:
    - every waiter is a live, pending future;
    - a resolved entry has no waiters;
    - no future waits in two entries.
  - The lemmas state what the source promises about each operation.
- **`request_api.dfy`** (module `KafkaRequestApi`) holds the class
  `RequestApi`. Its fields are an `ExpiringMap` and a `FutureTable`.
  - `PublishRequest`, `ReceiveResponse` and `AdvanceClock` are proved to move
    `Abs()` exactly as the matching `Step` says.
  - `QueryResponse` is proved to give exactly the state and the future of
    `Query`.
  - `RemoveStale` is proved to move `Abs()` exactly as `Sweep` says.
  - `CompleteEach` is proved to change the futures exactly as `SettleAll`
    says.
  - The `forEach` calls of the source become `while` loops, and their loop
    invariants tie the futures to `SettleAll`.
  - The sends of `publishRequest` are inputs: each is given as a success or
    a failure. The records handed to the publishers are logged in
    `published`.
- **`scenarios.dfy`** (module `Scenarios`) is client code. It drives a
  `RequestApi` through five scenarios, using only the contracts above:
  - a waiter times out once its request is older than the retention;
  - one response completes two waiters;
  - a late query is answered from the cached response;
  - a query for an unknown id fails;
  - a second publish under the same id keeps the resolved entry.

One might expect an entry that has a cached response to stay fixed until it
is evicted. The model follows the code, which does not do that.

- The response handler (`KafkaRequestAPI.java:122-124`) always installs the
  latest response. So a second response for the same id replaces the cached
  one.
- `Correlation.DispatchReplacesCachedResponse` states this.
- Waiters are never completed twice either way, because a resolved entry has
  no waiters.

## Model

Source paths are relative to the repository root.

| member | source | states |
|---|---|---|
| Futures.Settle | simplesource-command-kafka/src/main/java/io/simplesource/kafka/internal/client/KafkaRequestAPI.java:123 | completing a future always leaves it completed; a pending future takes the given outcome, an already completed one keeps its own (one-shot completion) |
| Futures.FutureTable.Create | simplesource-command-kafka/src/main/java/io/simplesource/kafka/internal/client/KafkaRequestAPI.java:156 | a new future is pending and distinct from every earlier one; no earlier future changes |
| Futures.FutureTable.Complete | simplesource-command-kafka/src/main/java/io/simplesource/kafka/internal/client/KafkaRequestAPI.java:159 | only the named future changes, as `Settle` says; the returned flag is true exactly when it was still pending |
| ExpiringMaps.Inserted | simplesource-command-kafka/src/main/java/io/simplesource/kafka/internal/client/KafkaRequestAPI.java:143 | insert-if-absent adds the key, never changes an existing entry, and a new entry holds the value stamped with the current time |
| ExpiringMaps.Computed | simplesource-command-kafka/src/main/java/io/simplesource/kafka/internal/client/KafkaRequestAPI.java:157-163 | compute-if-present keeps the key set and every other entry; a present entry gets the function's result and keeps its timestamp |
| ExpiringMaps.Live | simplesource-command-kafka/src/main/java/io/simplesource/kafka/internal/client/KafkaRequestAPI.java:147 | after a sweep, a key stays exactly when its entry is not stale, and what stays is unchanged |
| ExpiringMaps.Expired | simplesource-command-kafka/src/main/java/io/simplesource/kafka/internal/client/KafkaRequestAPI.java:147-149 | the entries a sweep hands to the eviction callback are exactly the stale ones, unchanged |
| ExpiringMaps.SweepPartitions | simplesource-command-kafka/src/main/java/io/simplesource/kafka/internal/client/KafkaRequestAPI.java:147 | a sweep splits the map: every key either survives or is evicted, never both |
| ExpiringMaps.LiveEntriesAreRecent | simplesource-command-kafka/src/main/java/io/simplesource/kafka/internal/client/KafkaRequestAPI.java:147 | when no entry was inserted in the future, every entry a sweep leaves is at most the retention old |
| ExpiringMaps.FreshEntrySurvives | simplesource-command-kafka/src/main/java/io/simplesource/kafka/internal/client/KafkaRequestAPI.java:143 | an entry inserted at the current time survives a sweep at that time |
| ExpiringMaps.ExpiringMap.constructor | simplesource-command-kafka/src/main/java/io/simplesource/kafka/internal/client/KafkaRequestAPI.java:120 | the map starts empty, with the response window's retention and the given clock reading |
| ExpiringMaps.ExpiringMap.Tick | simplesource-command-kafka/src/main/java/io/simplesource/kafka/internal/client/KafkaRequestAPI.java:120 | the clock only moves forward, and no entry is stamped in the future |
| ExpiringMaps.ExpiringMap.InsertIfAbsent | simplesource-command-kafka/src/main/java/io/simplesource/kafka/internal/client/KafkaRequestAPI.java:143 | the entries become `Inserted` of the old entries at the current time |
| ExpiringMaps.ExpiringMap.ComputeIfPresent | simplesource-command-kafka/src/main/java/io/simplesource/kafka/internal/client/KafkaRequestAPI.java:157-164 | the entries become `Computed` of the old ones; the result is the new value, or `None` (Java's null) for an absent key |
| ExpiringMaps.ExpiringMap.Lookup | simplesource-command-kafka/src/main/java/io/simplesource/kafka/internal/client/KafkaRequestAPI.java:122 | the result is the value under the key, or `None` when the key is absent |
| ExpiringMaps.ExpiringMap.RemoveStale | simplesource-command-kafka/src/main/java/io/simplesource/kafka/internal/client/KafkaRequestAPI.java:147-149 | the entries become `Live` of the old ones, and the evicted entries returned are `Expired` of the old ones; no entry left is older than the retention |
| Correlation.Initialise | simplesource-command-kafka/src/main/java/io/simplesource/kafka/internal/client/KafkaRequestAPI.java:35-37 | a new `ResponseHandlers` has an empty waiter list and exactly the given cached response |
| Correlation.Chained | simplesource-command-kafka/src/main/java/io/simplesource/kafka/internal/client/KafkaRequestAPI.java:141-142 | the chained send succeeds exactly when both sends succeed; the first failure is the result, and success carries the request's acknowledgment |
| Correlation.Register | simplesource-command-kafka/src/main/java/io/simplesource/kafka/internal/client/KafkaRequestAPI.java:143 | no ensures of its own: the insert-if-absent on success; its properties are stated by `PublishRegistersOnlyOnSuccess`, `PublishNeverOverwrites`, `PublishCreatesFreshEntry` and `RegisterKeepsWellFormed` |
| Correlation.Sweep | simplesource-command-kafka/src/main/java/io/simplesource/kafka/internal/client/KafkaRequestAPI.java:147-149 | no ensures of its own: remove-stale with the timeout callback; its properties are stated by `SweepTimesOutWaiters`, `SweepKeepsFreshEntries`, `SweepKeepsTheRest` and `SweepKeepsWellFormed` |
| Correlation.Publish | simplesource-command-kafka/src/main/java/io/simplesource/kafka/internal/client/KafkaRequestAPI.java:139-152 | no ensures of its own: register, then sweep; its properties are stated by `PublishRegistersOnlyOnSuccess`, `PublishNeverOverwrites`, `PublishCreatesFreshEntry`, `PublishIsLocal`, `PublishTimesOutStaleWaiters`, `PublishKeepsOtherFutures` and `PublishKeepsWellFormed` |
| Correlation.AddWaiter | simplesource-command-kafka/src/main/java/io/simplesource/kafka/internal/client/KafkaRequestAPI.java:157-163 | no ensures of its own: the compute-if-present lambda; its effect is stated by `QueryPendingWaits` and `QueryCachedAnswers` |
| Correlation.Query | simplesource-command-kafka/src/main/java/io/simplesource/kafka/internal/client/KafkaRequestAPI.java:154-168 | no ensures of its own: the new state and future of `queryResponse`; its properties are stated by `QueryUnknownFails`, `QueryCachedAnswers`, `QueryPendingWaits`, `QueryIsFreshAndLocal` and `QueryKeepsWellFormed` |
| Correlation.Dispatch | simplesource-command-kafka/src/main/java/io/simplesource/kafka/internal/client/KafkaRequestAPI.java:121-125 | no ensures of its own: the response handler applied through compute-if-present; its properties are stated by `DispatchFansOut`, `DispatchDropsUnknown`, `DispatchThenQueryAnswersAtOnce`, `DispatchReplacesCachedResponse` and `DispatchKeepsWellFormed` |
| Correlation.PublishRegistersOnlyOnSuccess | simplesource-command-kafka/src/main/java/io/simplesource/kafka/internal/client/KafkaRequestAPI.java:141-149 | when either send fails, publishing is exactly the sweep; a new entry appears only when both sends succeeded |
| Correlation.PublishNeverOverwrites | simplesource-command-kafka/src/main/java/io/simplesource/kafka/internal/client/KafkaRequestAPI.java:143 | publishing under a known id never replaces its entry, pending or resolved; the entry stays, unchanged, exactly when it is not stale |
| Correlation.PublishCreatesFreshEntry | simplesource-command-kafka/src/main/java/io/simplesource/kafka/internal/client/KafkaRequestAPI.java:143 | a successful publish under a new id leaves an entry with no waiters and no response, stamped with the current time |
| Correlation.PublishIsLocal | simplesource-command-kafka/src/main/java/io/simplesource/kafka/internal/client/KafkaRequestAPI.java:141-149 | publishing affects every other id only through the sweep: another entry stays, unchanged, exactly when it is not stale |
| Correlation.PublishTimesOutStaleWaiters | simplesource-command-kafka/src/main/java/io/simplesource/kafka/internal/client/KafkaRequestAPI.java:147-149 | whatever the two send outcomes, publishing evicts every stale entry, waiters or not, and each of its waiters ends failed with "Request timed out..." |
| Correlation.PublishKeepsOtherFutures | simplesource-command-kafka/src/main/java/io/simplesource/kafka/internal/client/KafkaRequestAPI.java:139-152 | whatever the send outcomes, publishing leaves every future that waits on no stale entry as it was |
| Correlation.SweepTimesOutWaiters | simplesource-command-kafka/src/main/java/io/simplesource/kafka/internal/client/KafkaRequestAPI.java:147-149 | every stale entry is evicted, waiters or not, and each of its waiters ends failed with "Request timed out..." |
| Correlation.SweepKeepsFreshEntries | simplesource-command-kafka/src/main/java/io/simplesource/kafka/internal/client/KafkaRequestAPI.java:147 | every entry that is not stale stays, unchanged |
| Correlation.SweepKeepsTheRest | simplesource-command-kafka/src/main/java/io/simplesource/kafka/internal/client/KafkaRequestAPI.java:147-149 | a future that waits on no stale entry keeps its state |
| Correlation.SweepKeepsWellFormed | simplesource-command-kafka/src/main/java/io/simplesource/kafka/internal/client/KafkaRequestAPI.java:147-149 | the sweep preserves the registry invariant |
| Correlation.QueryUnknownFails | simplesource-command-kafka/src/main/java/io/simplesource/kafka/internal/client/KafkaRequestAPI.java:156-166 | a query for an unknown id returns a new future already failed with "Invalid commandId." and creates no entry |
| Correlation.QueryCachedAnswers | simplesource-command-kafka/src/main/java/io/simplesource/kafka/internal/client/KafkaRequestAPI.java:156-162 | a query on a resolved entry returns a new future completed with the cached response and changes no entry |
| Correlation.QueryPendingWaits | simplesource-command-kafka/src/main/java/io/simplesource/kafka/internal/client/KafkaRequestAPI.java:156-163 | a query on a pending entry appends exactly one new pending future to that entry's waiters, and changes nothing else in the registry |
| Correlation.QueryIsFreshAndLocal | simplesource-command-kafka/src/main/java/io/simplesource/kafka/internal/client/KafkaRequestAPI.java:156-163 | the returned future is new: no entry was waiting on it, and earlier futures are unchanged; every other entry stays as it was |
| Correlation.QueryKeepsWellFormed | simplesource-command-kafka/src/main/java/io/simplesource/kafka/internal/client/KafkaRequestAPI.java:157-163 | a query preserves the registry invariant |
| Correlation.DispatchFansOut | simplesource-command-kafka/src/main/java/io/simplesource/kafka/internal/client/KafkaRequestAPI.java:121-125 | a response for a known id completes every waiter of that entry with it and no other future; the entry becomes (no waiters, cached response) with its timestamp kept |
| Correlation.DispatchDropsUnknown | simplesource-command-kafka/src/main/java/io/simplesource/kafka/internal/client/KafkaRequestAPI.java:121-122 | a response for an id with no entry changes nothing |
| Correlation.DispatchThenQueryAnswersAtOnce | simplesource-command-kafka/src/main/java/io/simplesource/kafka/internal/client/KafkaRequestAPI.java:121-125 | after a response is handled, a query for that id completes at once with it and attaches no waiter |
| Correlation.DispatchReplacesCachedResponse | simplesource-command-kafka/src/main/java/io/simplesource/kafka/internal/client/KafkaRequestAPI.java:122-124 | a second response for a resolved id replaces the cached response |
| Correlation.DispatchKeepsWellFormed | simplesource-command-kafka/src/main/java/io/simplesource/kafka/internal/client/KafkaRequestAPI.java:121-125 | handling a response preserves the registry invariant |
| Correlation.RegisterKeepsWellFormed | simplesource-command-kafka/src/main/java/io/simplesource/kafka/internal/client/KafkaRequestAPI.java:143 | registration preserves the registry invariant |
| Correlation.PublishKeepsWellFormed | simplesource-command-kafka/src/main/java/io/simplesource/kafka/internal/client/KafkaRequestAPI.java:139-152 | publishing preserves the registry invariant |
| Correlation.StepKeepsWellFormed | simplesource-command-kafka/src/main/java/io/simplesource/kafka/internal/client/KafkaRequestAPI.java:121-168 | every operation on the registry preserves the invariant |
| Correlation.RunKeepsWellFormed | simplesource-command-kafka/src/main/java/io/simplesource/kafka/internal/client/KafkaRequestAPI.java:121-168 | every state reachable from a well-formed state is well-formed |
| Correlation.StepKeepsCompletions | simplesource-command-kafka/src/main/java/io/simplesource/kafka/internal/client/KafkaRequestAPI.java:121-168 | no operation forgets a future or changes a completed one |
| Correlation.RunKeepsCompletions | simplesource-command-kafka/src/main/java/io/simplesource/kafka/internal/client/KafkaRequestAPI.java:121-168 | a completed future keeps its outcome for the rest of any run of the API's operations |
| KafkaRequestApi.RequestApi.constructor | simplesource-command-kafka/src/main/java/io/simplesource/kafka/internal/client/KafkaRequestAPI.java:120-125 | the API starts with an empty registry, no futures, the given retention and clock, and the three topic names |
| KafkaRequestApi.RequestApi.AdvanceClock | simplesource-command-kafka/src/main/java/io/simplesource/kafka/internal/client/KafkaRequestAPI.java:120 | time moves forward; nothing else changes |
| KafkaRequestApi.RequestApi.CompleteEach | simplesource-command-kafka/src/main/java/io/simplesource/kafka/internal/client/KafkaRequestAPI.java:123 | the `forEach` over a waiter list completes exactly the listed futures, each once, and no other future |
| KafkaRequestApi.RequestApi.PublishRequest | simplesource-command-kafka/src/main/java/io/simplesource/kafka/internal/client/KafkaRequestAPI.java:139-152 | the result is the chained send outcome; the request record is sent only after the mapping succeeded; the state moves as `Publish` says, keeping the invariant; afterwards no entry is older than the retention |
| KafkaRequestApi.RequestApi.RemoveStale | simplesource-command-kafka/src/main/java/io/simplesource/kafka/internal/client/KafkaRequestAPI.java:147-149 | the sweep with its timeout callback moves the state as `Sweep` says, keeping the invariant; afterwards no entry is older than the retention |
| KafkaRequestApi.RequestApi.QueryResponse | simplesource-command-kafka/src/main/java/io/simplesource/kafka/internal/client/KafkaRequestAPI.java:154-168 | the new state and the returned future are exactly those of `Query`, keeping the invariant |
| KafkaRequestApi.RequestApi.ReceiveResponse | simplesource-command-kafka/src/main/java/io/simplesource/kafka/internal/client/KafkaRequestAPI.java:121-125 | handling a response moves the state as `Dispatch` says, keeping the invariant |

## Left out

- Kafka producer construction and record sending (`KafkaRequestAPI.java:61-78`)
  are not modelled. Each send's outcome is an input.
- The `PublishResult` timestamp is an opaque input.
- Topic creation through the `AdminClient` (`KafkaRequestAPI.java:105-118`) is
  I/O and is left out.
- The consumer runner and the subscription wiring (`KafkaRequestAPI.java:84-88`,
  `127`) are I/O. A delivered response is a call to `ReceiveResponse`.
- The shutdown hook and `close()` (`KafkaRequestAPI.java:129-136`, `170-172`)
  only close the subscription. They are left out.
- Logging is left out.
- Concurrency is left out. The model treats `insertIfAbsent`,
  `computeIfPresent` and `removeStale` as atomic steps, and it does not
  model races between the response dispatcher, queries and sweeps.
- The wall clock (`Clock.systemUTC()`, line 120) is a natural-number reading
  advanced by `AdvanceClock`. Retention is a natural number in the same unit.
- The timeout parameter of `queryResponse` (line 154) is ignored by the code
  (line 155), so the model has no such parameter.
- The asynchrony of `FutureResult` is not modelled. The chain
  "send mapping, then send request, then insert" is flattened into one step,
  and that step runs before the sweep.
  - With asynchronous sends, the insertion can run after the sweep.
  - The two orders differ only when the same id already has a stale entry.
    Insert-then-sweep leaves no entry; sweep-then-insert leaves a fresh one.
- Exceptions are represented by their messages only.
- `ExpiringMap`, `ResponseReceiver`, `RequestPublisher` and `FutureResult`
  are not part of this model. `KafkaRequestAPI.java` only calls them, so the
  model makes three assumptions about them:
  - An entry is stale when strictly more than the retention has passed since
    its insertion (`stamp + retention < now`). Line 120 passes only a
    retention and a clock, so the exact comparison is assumed. With `>=`
    instead, only an entry exactly `retention` old would behave differently.
  - Compute-if-present keeps the entry's timestamp, so only insert-if-absent
    stamps an entry. This is assumed as well. If it refreshed the stamp, each
    query or response would extend the entry's life.
  - The receiver applies the handler of lines 121-125 to the entry of the
    response's id through compute-if-present, and does nothing for an
    unknown id.
- The source completes the waiters inside the function it
  passes to compute-if-present. `RequestApi.ReceiveResponse` does the same in three steps: look
  up the entry, complete its waiters, then replace the entry. Without
  concurrency the effect is the same.
- A caller's own use of a returned future is not modelled.
  `queryResponse` hands the `CompletableFuture` to its caller (line 167).
  The caller could complete it, cancel it, call `orTimeout` on it or obtrude a value on it while it is still in an
  entry's waiter list. The model has no such event. So "every waiter is
  pending" in `WellFormed`, and the outcomes stated by
  `SweepTimesOutWaiters`, `PublishTimesOutStaleWaiters` and
  `DispatchFansOut`, hold only for futures that callers leave alone.
- Request ids are UUIDs, modelled as natural numbers below 2^128.
