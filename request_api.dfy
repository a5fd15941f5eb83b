/** `KafkaRequestAPI`: the object callers use to publish requests and wait for
    their responses. Its registry is an `ExpiringMap` from request id to
    `ResponseHandlers`, its futures live in a `FutureTable`, and each method is
    proved to move the pair exactly as the matching step of module Correlation
    says. The two publishers are inputs: each send is given as a success or a
    failure, and `published` records the sends that were attempted. */
module KafkaRequestApi {
  import opened Wrappers
  import opened Futures
  import opened ExpiringMaps
  import opened Correlation

  /** A record handed to one of the two publishers. */
  datatype Record<K, I> =
    | ResponseTopicMapping(topic: string, requestId: Uuid, responseTopic: string)
    | RequestRecord(topic: string, key: K, request: I)

  /** The entries of `m` whose keys are in `keys`. */
  ghost function Restrict<O>(m: map<Uuid, Timed<ResponseHandlers<O>>>, keys: set<Uuid>): map<Uuid, Timed<ResponseHandlers<O>>>
  {
    m - (m.Keys - keys)
  }

  /** Handling one more evicted entry adds exactly its waiters. */
  lemma WaitersGrow<O>(m: map<Uuid, Timed<ResponseHandlers<O>>>, done: set<Uuid>, k: Uuid)
    requires k in m
    ensures Waiters(Restrict(m, done + {k})) == Waiters(Restrict(m, done)) + Ids(m[k].value.handlers)
  {
    var bigger := Restrict(m, done + {k});
    var smaller := Restrict(m, done);
    forall f | f in Waiters(bigger) ensures f in Waiters(smaller) + Ids(m[k].value.handlers) {
      var j :| j in bigger && f in bigger[j].value.handlers;
      if j != k {
        assert j in smaller && f in smaller[j].value.handlers;
      }
    }
    forall f | f in Waiters(smaller) ensures f in Waiters(bigger) {
      var j :| j in smaller && f in smaller[j].value.handlers;
      assert j in bigger && f in bigger[j].value.handlers;
    }
    forall f | f in m[k].value.handlers ensures f in Waiters(bigger) {
      assert k in bigger && f in bigger[k].value.handlers;
    }
  }

  class RequestApi<K, I, O> {
    const requestTopic: string
    const responseTopicMapTopic: string
    const privateResponseTopic: string
    const handlerMap: ExpiringMap<Uuid, ResponseHandlers<O>>
    const futures: FutureTable<O>
    /** Every record handed to a publisher, in order. */
    var published: seq<Record<K, I>>

    /** The registry, the futures and the clock, as a value. */
    ghost function Abs(): State<O>
      reads handlerMap, futures
    {
      State(handlerMap.entries, futures.slots, handlerMap.clock)
    }

    ghost predicate Valid()
      reads handlerMap, futures
    {
      handlerMap.Valid() && WellFormed(Abs())
    }

    /** The registry part of the constructor: an empty expiring map with the
        response window's retention, read against the given clock. */
    constructor (requestTopic: string, responseTopicMapTopic: string, privateResponseTopic: string,
                 retention: nat, clock: nat)
      ensures Valid() && fresh(handlerMap) && fresh(futures)
      ensures Abs() == State(map[], [], clock) && handlerMap.retention == retention
      ensures published == []
      ensures this.requestTopic == requestTopic && this.responseTopicMapTopic == responseTopicMapTopic
      ensures this.privateResponseTopic == privateResponseTopic
    {
      this.requestTopic := requestTopic;
      this.responseTopicMapTopic := responseTopicMapTopic;
      this.privateResponseTopic := privateResponseTopic;
      handlerMap := new ExpiringMap(retention, clock);
      futures := new FutureTable();
      published := [];
    }

    /** Time passes. */
    method AdvanceClock(elapsed: nat)
      requires Valid()
      modifies handlerMap
      ensures Valid()
      ensures Abs() == Step(old(Abs()), handlerMap.retention, ClockAdvanced(elapsed))
    {
      handlerMap.Tick(handlerMap.clock + elapsed);
    }

    /** The `forEach` over a handler list: complete each future with `c`. */
    method CompleteEach(handlers: seq<FutureId>, c: Completion<O>)
      requires forall f :: f in handlers ==> f < |futures.slots|
      modifies futures
      ensures futures.slots == SettleAll(old(futures.slots), Ids(handlers), c)
    {
      ghost var before := futures.slots;
      var i := 0;
      while i < |handlers|
        invariant 0 <= i <= |handlers|
        invariant futures.slots == SettleAll(before, Ids(handlers[..i]), c)
      {
        assert handlers[i] in handlers;
        SettleAllExtend(before, Ids(handlers[..i]), c, handlers[i]);
        assert Ids(handlers[..i + 1]) == Ids(handlers[..i]) + {handlers[i]};
        var _ := futures.Complete(handlers[i], c);
        i := i + 1;
      }
      assert handlers[..|handlers|] == handlers;
    }

    /** `publishRequest`: publish the response-topic mapping, then (only if that
        succeeded) the request; register the request id only if both succeeded;
        then, whatever happened, sweep the stale entries, failing their waiters
        with a timeout. */
    method PublishRequest(key: K, requestId: Uuid, request: I, mapSent: SendOutcome, requestSent: SendOutcome)
      returns (result: SendOutcome)
      requires Valid()
      modifies this, handlerMap, futures
      ensures Valid()
      ensures result == Chained(mapSent, requestSent)
      ensures published == old(published)
                + [ResponseTopicMapping(responseTopicMapTopic, requestId, privateResponseTopic)]
                + (if mapSent.Success? then [RequestRecord(requestTopic, key, request)] else [])
      ensures Abs() == Step(old(Abs()), handlerMap.retention, RequestPublished(requestId, mapSent, requestSent))
      ensures forall k :: k in handlerMap.entries ==>
                handlerMap.entries[k].stamp <= handlerMap.clock <= handlerMap.entries[k].stamp + handlerMap.retention
    {
      published := published + [ResponseTopicMapping(responseTopicMapTopic, requestId, privateResponseTopic)];
      result := mapSent;
      if mapSent.Success? {
        published := published + [RequestRecord(requestTopic, key, request)];
        result := requestSent;
        if requestSent.Success? {
          handlerMap.InsertIfAbsent(requestId, Initialise(None));
        }
      }
      RegisterKeepsWellFormed(old(Abs()), requestId, result);
      RemoveStale();
    }

    /** The sweep `publishRequest` ends with: `removeStale` with a callback that
        completes every waiter of each evicted entry exceptionally with the
        timeout message. */
    method RemoveStale()
      requires Valid()
      modifies handlerMap, futures
      ensures Valid()
      ensures Abs() == Sweep(old(Abs()), handlerMap.retention)
      ensures forall k :: k in handlerMap.entries ==>
                handlerMap.entries[k].stamp <= handlerMap.clock <= handlerMap.entries[k].stamp + handlerMap.retention
    {
      var evicted := handlerMap.RemoveStale();
      var remaining := evicted.Keys;
      ghost var done: set<Uuid> := {};
      while remaining != {}
        invariant remaining !! done && remaining + done == evicted.Keys
        invariant futures.slots == SettleAll(old(futures.slots), Waiters(Restrict(evicted, done)), Error(TimedOutMessage))
        decreases remaining
        modifies futures
      {
        var k :| k in remaining;
        assert k in old(handlerMap.entries) && evicted[k] == old(handlerMap.entries)[k];
        CompleteEach(evicted[k].value.handlers, Error(TimedOutMessage));
        SettleAllUnion(old(futures.slots), Waiters(Restrict(evicted, done)), Ids(evicted[k].value.handlers), Error(TimedOutMessage));
        WaitersGrow(evicted, done, k);
        remaining := remaining - {k};
        done := done + {k};
      }
      assert Restrict(evicted, done) == evicted;
      SweepKeepsWellFormed(old(Abs()), handlerMap.retention);
    }

    /** `queryResponse`: a new future that is failed at once for an unknown id,
        completed at once with a cached response, or else added to the entry's
        waiters. */
    method QueryResponse(requestId: Uuid) returns (f: FutureId)
      requires Valid()
      modifies handlerMap, futures
      ensures Valid()
      ensures (Abs(), f) == Query(old(Abs()), requestId)
    {
      ghost var st := Abs();
      f := futures.Create();
      var h := handlerMap.ComputeIfPresent(requestId, hs => AddWaiter(hs, f));
      if h.None? {
        var _ := futures.Complete(f, Error(InvalidIdMessage));
        assert futures.slots == st.futures + [Completed(Error(InvalidIdMessage))];
      } else if h.value.response.Some? {
        var _ := futures.Complete(f, Value(h.value.response.value));
        assert futures.slots == st.futures + [Completed(Value(h.value.response.value))];
      }
      QueryKeepsWellFormed(old(Abs()), requestId);
    }

    /** The response handler the constructor registers with the response
        subscription: for a known id, complete every waiter with `r` and replace
        the entry by one caching `r`; for an unknown id, nothing. */
    method ReceiveResponse(requestId: Uuid, r: O)
      requires Valid()
      modifies handlerMap, futures
      ensures Valid()
      ensures Abs() == Step(old(Abs()), handlerMap.retention, ResponseArrived(requestId, r))
    {
      var h := handlerMap.Lookup(requestId);
      if h.Some? {
        CompleteEach(h.value.handlers, Value(r));
        var _ := handlerMap.ComputeIfPresent(requestId, _ => Initialise(Some(r)));
      }
      DispatchKeepsWellFormed(old(Abs()), requestId, r);
    }
  }
}
