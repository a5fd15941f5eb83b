/** Client code driving a `RequestApi`, relying only on the methods' contracts
    and the lemmas of module Correlation: a waiter timing out once its request
    is older than the retention, fan-out of one response to two waiters, a late
    query answered from the cached response, a query for an unknown id, and a
    duplicate publish under one id. */
module Scenarios {
  import opened Wrappers
  import opened Futures
  import opened ExpiringMaps
  import opened Correlation
  import opened KafkaRequestApi

  const Ack: SendOutcome := Success(PublishResult(0))

  /** Retention 5: a request published at time 0 with a waiting query and no
      response is evicted by a publish at time 6, and its waiter times out,
      even though that later publish itself failed. */
  method TimeoutScenario(a: Uuid, b: Uuid)
    requires a != b
  {
    var api := new RequestApi<string, string, int>("requests", "response-topic-map", "responses", 5, 0);
    ghost var s0 := api.Abs();
    var sent := api.PublishRequest("key", a, "command", Ack, Ack);
    PublishCreatesFreshEntry(s0, 5, a, Ack, Ack);
    ghost var s1 := api.Abs();
    assert s1.registry[a] == Timed(Initialise(None), 0);
    var f := api.QueryResponse(a);
    QueryPendingWaits(s1, a);
    ghost var s2 := api.Abs();
    assert a in s2.registry && f in s2.registry[a].value.handlers;
    api.AdvanceClock(6);
    ghost var s3 := api.Abs();
    assert s3.registry == s2.registry && s3.clock == 6;
    sent := api.PublishRequest("key", b, "command", Failure("broker down"), Ack);
    assert sent == Failure("broker down");
    PublishRegistersOnlyOnSuccess(s3, 5, b, Failure("broker down"), Ack);
    SweepTimesOutWaiters(s3, 5, a);
    assert a !in api.Abs().registry;
    assert api.futures.slots[f] == Completed(Error(TimedOutMessage));
  }

  /** Two queries made before the response arrives get two distinct futures,
      and the response completes both with the same value. */
  method FanOutScenario(b: Uuid)
  {
    var api := new RequestApi<string, string, int>("requests", "response-topic-map", "responses", 5, 0);
    ghost var s0 := api.Abs();
    var _ := api.PublishRequest("key", b, "command", Ack, Ack);
    PublishCreatesFreshEntry(s0, 5, b, Ack, Ack);
    ghost var s1 := api.Abs();
    var early1 := api.QueryResponse(b);
    QueryPendingWaits(s1, b);
    ghost var s2 := api.Abs();
    var early2 := api.QueryResponse(b);
    QueryPendingWaits(s2, b);
    assert early1 != early2;
    ghost var s3 := api.Abs();
    assert early1 in s3.registry[b].value.handlers && early2 in s3.registry[b].value.handlers;
    api.ReceiveResponse(b, 42);
    DispatchFansOut(s3, b, 42);
    assert api.futures.slots[early1] == Completed(Value(42));
    assert api.futures.slots[early2] == Completed(Value(42));
  }

  /** A response delivered at time 1 is cached: a query at time 4 resolves at
      once with it, and the entry keeps no waiter. */
  method CachedResponseScenario(b: Uuid)
  {
    var api := new RequestApi<string, string, int>("requests", "response-topic-map", "responses", 5, 0);
    ghost var s0 := api.Abs();
    var _ := api.PublishRequest("key", b, "command", Ack, Ack);
    PublishCreatesFreshEntry(s0, 5, b, Ack, Ack);
    api.AdvanceClock(1);
    ghost var s1 := api.Abs();
    api.ReceiveResponse(b, 42);
    DispatchFansOut(s1, b, 42);
    api.AdvanceClock(3);
    ghost var s2 := api.Abs();
    assert s2.registry[b].value == Initialise(Some(42));
    var late := api.QueryResponse(b);
    QueryCachedAnswers(s2, b, 42);
    assert api.futures.slots[late] == Completed(Value(42));
    assert api.Abs().registry[b].value == Initialise(Some(42));
  }

  /** A response for an id that was never published changes nothing, and a
      query for it fails at once with "Invalid commandId.". */
  method UnknownIdScenario(c: Uuid)
  {
    var api := new RequestApi<string, string, int>("requests", "response-topic-map", "responses", 5, 0);
    ghost var before := api.Abs();
    api.ReceiveResponse(c, 7);
    assert api.Abs() == before;
    var f := api.QueryResponse(c);
    assert api.futures.slots[f] == Completed(Error(InvalidIdMessage));
    assert c !in api.Abs().registry;
  }

  /** Publishing twice under one id keeps the resolved entry: a later query
      still gets the cached response. */
  method DuplicatePublishScenario(d: Uuid)
  {
    var api := new RequestApi<string, string, int>("requests", "response-topic-map", "responses", 5, 0);
    var _ := api.PublishRequest("key", d, "command", Ack, Ack);
    api.ReceiveResponse(d, 1);
    var _ := api.PublishRequest("key", d, "command again", Ack, Ack);
    var f := api.QueryResponse(d);
    assert api.futures.slots[f] == Completed(Value(1));
  }
}
