/** The request/response correlation registry of `KafkaRequestAPI`, as a state
    machine over values: the registry (request id to `ResponseHandlers`, with
    insertion times), the table of futures handed out, and the clock. The class
    in module KafkaRequestApi is proved to move between exactly these states. */
module Correlation {
  import opened Wrappers
  import opened Futures
  import opened ExpiringMaps

  /** Request ids are 128-bit UUIDs chosen by the caller. */
  type Uuid = x: nat | x < 0x1_0000_0000_0000_0000_0000_0000_0000_0000

  /** `ResponseHandlers`: the futures waiting for the response and, once it has
      arrived, the response itself. */
  datatype ResponseHandlers<O> = ResponseHandlers(handlers: seq<FutureId>, response: Option<O>)

  /** `ResponseHandlers.initialise`: no waiters, and the given cached response. */
  function Initialise<O>(r: Option<O>): (h: ResponseHandlers<O>)
    ensures h.handlers == [] && h.response == r
  {
    ResponseHandlers([], r)
  }

  /** The message of the exception every waiter of an evicted entry gets. */
  const TimedOutMessage: string := "Request timed out..."

  /** The message of the exception a query for an unknown request id gets. */
  const InvalidIdMessage: string := "Invalid commandId."

  /** `RequestPublisher.PublishResult`: the acknowledgment of one send. */
  datatype PublishResult = PublishResult(timestamp: int)

  /** The outcome of one send: the acknowledgment, or the exception's message. */
  type SendOutcome = Result<PublishResult, string>

  datatype State<O> = State(registry: map<Uuid, Timed<ResponseHandlers<O>>>, futures: seq<FutureState<O>>, clock: nat)

  /** Every future waiting in some entry of `m`. */
  ghost function Waiters<O>(m: map<Uuid, Timed<ResponseHandlers<O>>>): set<FutureId>
  {
    set k: Uuid, f: FutureId | k in m && f in m[k].value.handlers :: f
  }

  /** `FutureResult.flatMap`: the second send happens only after the first
      succeeded, and the first failure is the result. */
  function Chained(first: SendOutcome, second: SendOutcome): (r: SendOutcome)
    ensures r.Success? <==> first.Success? && second.Success?
    ensures first.Success? ==> r == second
    ensures first.Failure? ==> r == first
  {
    if first.Failure? then first else second
  }

  /** The registration step of `publishRequest`: insert-if-absent of a fresh
      entry, only when the sends succeeded. */
  ghost function Register<O>(st: State<O>, id: Uuid, sent: SendOutcome): State<O>
  {
    if sent.Success? then st.(registry := Inserted(st.registry, id, Initialise(None), st.clock)) else st
  }

  /** `removeStale` with the timeout callback: stale entries go, and each of
      their waiters is completed exceptionally. */
  ghost function Sweep<O>(st: State<O>, retention: nat): State<O>
  {
    var evicted := Expired(st.registry, st.clock, retention);
    State(Live(st.registry, st.clock, retention),
          SettleAll(st.futures, Waiters(evicted), Error(TimedOutMessage)),
          st.clock)
  }

  /** `publishRequest`: send the response-topic mapping, then the request,
      register on success, and sweep whatever happened. */
  ghost function Publish<O>(st: State<O>, retention: nat, id: Uuid, mapSent: SendOutcome, requestSent: SendOutcome): State<O>
  {
    Sweep(Register(st, id, Chained(mapSent, requestSent)), retention)
  }

  /** The lambda `queryResponse` passes to `computeIfPresent`: a pending entry
      gets the new future appended, a resolved entry stays as it is. */
  function AddWaiter<O>(h: ResponseHandlers<O>, f: FutureId): ResponseHandlers<O>
  {
    if h.response.Some? then h else h.(handlers := h.handlers + [f])
  }

  /** `queryResponse`: the new state and the new future's id. */
  ghost function Query<O>(st: State<O>, id: Uuid): (State<O>, FutureId)
  {
    var f := |st.futures|;
    var answer :=
      if id !in st.registry then Completed(Error(InvalidIdMessage))
      else if st.registry[id].value.response.Some? then Completed(Value(st.registry[id].value.response.value))
      else Pending;
    (State(Computed(st.registry, id, h => AddWaiter(h, f)), st.futures + [answer], st.clock), f)
  }

  /** The response handler built in the constructor, applied through
      `computeIfPresent`: complete every waiter with `r`, then cache `r`. */
  ghost function Dispatch<O>(st: State<O>, id: Uuid, r: O): State<O>
  {
    if id !in st.registry then st
    else
      State(Computed(st.registry, id, _ => Initialise(Some(r))),
            SettleAll(st.futures, Ids(st.registry[id].value.handlers), Value(r)),
            st.clock)
  }

  /** Everything that can happen to the registry. */
  datatype Event<O> =
    | RequestPublished(id: Uuid, mapSent: SendOutcome, requestSent: SendOutcome)
    | ResponseQueried(id: Uuid)
    | ResponseArrived(id: Uuid, response: O)
    | ClockAdvanced(elapsed: nat)

  ghost function Step<O>(st: State<O>, retention: nat, e: Event<O>): State<O>
  {
    match e
    case RequestPublished(id, mapSent, requestSent) => Publish(st, retention, id, mapSent, requestSent)
    case ResponseQueried(id) => Query(st, id).0
    case ResponseArrived(id, r) => Dispatch(st, id, r)
    case ClockAdvanced(elapsed) => st.(clock := st.clock + elapsed)
  }

  ghost function Run<O>(st: State<O>, retention: nat, es: seq<Event<O>>): State<O>
    decreases |es|
  {
    if es == [] then st else Run(Step(st, retention, es[0]), retention, es[1..])
  }

  /** What every reachable state satisfies: waiters are live futures that are
      still pending, an entry with a cached response has no waiters, and no
      future waits in two entries. */
  ghost predicate WellFormed<O>(st: State<O>)
  {
    && (forall k: Uuid, f: FutureId {:trigger f in st.registry[k].value.handlers} ::
          k in st.registry && f in st.registry[k].value.handlers ==> f < |st.futures| && st.futures[f].Pending?)
    && (forall k :: k in st.registry && st.registry[k].value.response.Some? ==>
          st.registry[k].value.handlers == [])
    && (forall k: Uuid, j: Uuid, f: FutureId ::
          (k in st.registry && j in st.registry &&
           f in st.registry[k].value.handlers && f in st.registry[j].value.handlers) ==> k == j)
  }

  // ---------------------------------------------------------------------
  // publishRequest

  /** Registration happens only when both sends succeed; otherwise only the
      sweep acts. */
  lemma PublishRegistersOnlyOnSuccess<O>(st: State<O>, retention: nat, id: Uuid, mapSent: SendOutcome, requestSent: SendOutcome)
    ensures mapSent.Failure? || requestSent.Failure? ==>
              Publish(st, retention, id, mapSent, requestSent) == Sweep(st, retention)
    ensures id !in st.registry && id in Publish(st, retention, id, mapSent, requestSent).registry ==>
              mapSent.Success? && requestSent.Success?
  {
  }

  /** Publishing again under a known id never replaces its entry, pending or
      resolved: the entry stays as it was unless the sweep evicts it. */
  lemma PublishNeverOverwrites<O>(st: State<O>, retention: nat, id: Uuid, mapSent: SendOutcome, requestSent: SendOutcome)
    requires id in st.registry
    ensures var p := Publish(st, retention, id, mapSent, requestSent);
            && (id in p.registry <==> st.clock <= st.registry[id].stamp + retention)
            && (id in p.registry ==> p.registry[id] == st.registry[id])
  {
  }

  /** A successful publish under a new id leaves a fresh entry, stamped now:
      no waiters and no response. */
  lemma PublishCreatesFreshEntry<O>(st: State<O>, retention: nat, id: Uuid, mapSent: SendOutcome, requestSent: SendOutcome)
    requires id !in st.registry && mapSent.Success? && requestSent.Success?
    ensures var p := Publish(st, retention, id, mapSent, requestSent);
            id in p.registry && p.registry[id] == Timed(Initialise(None), st.clock)
  {
    FreshEntrySurvives(st.registry, id, Initialise(None), st.clock, retention);
  }

  /** Publishing touches no other id except through the sweep: another entry
      stays, unchanged, exactly when it is not stale. */
  lemma PublishIsLocal<O>(st: State<O>, retention: nat, id: Uuid, mapSent: SendOutcome, requestSent: SendOutcome, k: Uuid)
    requires k != id
    ensures var p := Publish(st, retention, id, mapSent, requestSent);
            && (k in p.registry <==> k in st.registry && st.clock <= st.registry[k].stamp + retention)
            && (k in p.registry ==> p.registry[k] == st.registry[k])
  {
  }

  /** The sweep evicts every stale entry and completes each of its waiters
      exceptionally with the timeout message. */
  lemma SweepTimesOutWaiters<O>(st: State<O>, retention: nat, k: Uuid)
    requires WellFormed(st)
    requires k in st.registry && st.registry[k].stamp + retention < st.clock
    ensures k !in Sweep(st, retention).registry
    ensures forall f :: f in st.registry[k].value.handlers ==>
              f < |Sweep(st, retention).futures| && Sweep(st, retention).futures[f] == Completed(Error(TimedOutMessage))
  {
    var evicted := Expired(st.registry, st.clock, retention);
    forall f | f in st.registry[k].value.handlers
      ensures f < |Sweep(st, retention).futures| && Sweep(st, retention).futures[f] == Completed(Error(TimedOutMessage))
    {
      assert k in evicted && f in evicted[k].value.handlers;
      assert f in Waiters(evicted);
      assert f < |st.futures| && st.futures[f].Pending?;
    }
  }

  /** Whatever the send outcomes, publishing sweeps: every stale entry is
      evicted and each of its waiters ends failed with the timeout message. */
  lemma PublishTimesOutStaleWaiters<O>(st: State<O>, retention: nat, id: Uuid, mapSent: SendOutcome, requestSent: SendOutcome,
                                       k: Uuid)
    requires WellFormed(st)
    requires k in st.registry && st.registry[k].stamp + retention < st.clock
    ensures var p := Publish(st, retention, id, mapSent, requestSent);
            && k !in p.registry
            && forall f :: f in st.registry[k].value.handlers ==>
                 f < |p.futures| && p.futures[f] == Completed(Error(TimedOutMessage))
  {
    var r := Register(st, id, Chained(mapSent, requestSent));
    RegisterKeepsWellFormed(st, id, Chained(mapSent, requestSent));
    assert k in r.registry && r.registry[k] == st.registry[k];
    SweepTimesOutWaiters(r, retention, k);
  }

  /** Publishing leaves alone every future that waits on no stale entry,
      whatever the send outcomes. */
  lemma PublishKeepsOtherFutures<O>(st: State<O>, retention: nat, id: Uuid, mapSent: SendOutcome, requestSent: SendOutcome,
                                    f: FutureId)
    requires f < |st.futures|
    requires forall k :: k in st.registry && f in st.registry[k].value.handlers ==>
               st.clock <= st.registry[k].stamp + retention
    ensures var p := Publish(st, retention, id, mapSent, requestSent);
            f < |p.futures| && p.futures[f] == st.futures[f]
  {
    var r := Register(st, id, Chained(mapSent, requestSent));
    assert r.futures == st.futures && r.clock == st.clock;
    assert forall k :: k in r.registry && k !in st.registry ==> r.registry[k].value.handlers == [];
    assert forall k :: k in st.registry ==> k in r.registry && r.registry[k] == st.registry[k];
    SweepKeepsTheRest(r, retention, f);
  }

  /** The sweep keeps every entry that is not stale, untouched. */
  lemma SweepKeepsFreshEntries<O>(st: State<O>, retention: nat)
    ensures forall k :: k in st.registry && st.clock <= st.registry[k].stamp + retention ==>
              k in Sweep(st, retention).registry && Sweep(st, retention).registry[k] == st.registry[k]
  {
  }

  /** The sweep leaves every future that waited on no evicted entry as it was. */
  lemma SweepKeepsTheRest<O>(st: State<O>, retention: nat, f: FutureId)
    requires f < |st.futures|
    requires forall k :: k in st.registry && f in st.registry[k].value.handlers ==>
               st.clock <= st.registry[k].stamp + retention
    ensures f < |Sweep(st, retention).futures| && Sweep(st, retention).futures[f] == st.futures[f]
  {
  }

  lemma SweepKeepsWellFormed<O>(st: State<O>, retention: nat)
    requires WellFormed(st)
    ensures WellFormed(Sweep(st, retention))
  {
    var p := Sweep(st, retention);
    forall k: Uuid, f: FutureId | k in p.registry && f in p.registry[k].value.handlers
      ensures f < |p.futures| && p.futures[f].Pending?
    {
      assert k in st.registry && p.registry[k] == st.registry[k];
      SweepKeepsTheRest(st, retention, f);
    }
  }

  // ---------------------------------------------------------------------
  // queryResponse

  /** A query for an id with no entry returns a new future already failed with
      "Invalid commandId." and creates no entry. */
  lemma QueryUnknownFails<O>(st: State<O>, id: Uuid)
    requires id !in st.registry
    ensures Query(st, id).1 == |st.futures|
    ensures Query(st, id).0 == st.(futures := st.futures + [Completed(Error(InvalidIdMessage))])
  {
  }

  /** A query for a resolved entry returns a new future completed with the cached
      response, and changes no entry. */
  lemma QueryCachedAnswers<O>(st: State<O>, id: Uuid, v: O)
    requires id in st.registry && st.registry[id].value.response == Some(v)
    ensures Query(st, id).1 == |st.futures|
    ensures Query(st, id).0 == st.(futures := st.futures + [Completed(Value(v))])
  {
  }

  /** A query for a pending entry appends exactly one new, pending future to
      that entry's waiters and to no other, keeping the entry's time stamp. */
  lemma QueryPendingWaits<O>(st: State<O>, id: Uuid)
    requires id in st.registry && st.registry[id].value.response.None?
    ensures var (q, f) := Query(st, id);
            && f == |st.futures|
            && q.futures == st.futures + [Pending]
            && q.registry == st.registry[id := st.registry[id].(value := st.registry[id].value.(handlers := st.registry[id].value.handlers + [f]))]
  {
  }

  /** Every query hands out a future no entry was waiting on and no earlier
      query returned, and leaves every other entry as it was. */
  lemma QueryIsFreshAndLocal<O>(st: State<O>, id: Uuid)
    requires WellFormed(st)
    ensures var (q, f) := Query(st, id);
            && f == |st.futures| && |q.futures| == f + 1 && q.futures[..f] == st.futures
            && (forall k :: k in st.registry ==> f !in st.registry[k].value.handlers)
            && q.registry.Keys == st.registry.Keys
            && (forall k :: k in st.registry && k != id ==> q.registry[k] == st.registry[k])
  {
  }

  // ---------------------------------------------------------------------
  // The response handler

  /** A response for a known id completes every waiter of that entry with it,
      leaves every other future alone, and turns the entry into a resolved entry
      with no waiters and the response cached, keeping its time stamp. */
  lemma DispatchFansOut<O>(st: State<O>, id: Uuid, r: O)
    requires WellFormed(st) && id in st.registry
    ensures var d := Dispatch(st, id, r);
            && |d.futures| == |st.futures|
            && (forall f: FutureId :: f in st.registry[id].value.handlers ==>
                  f < |d.futures| && d.futures[f] == Completed(Value(r)))
            && (forall f: FutureId :: f < |st.futures| && f !in st.registry[id].value.handlers ==> d.futures[f] == st.futures[f])
            && d.registry == st.registry[id := Timed(Initialise(Some(r)), st.registry[id].stamp)]
  {
  }

  /** A response for an id with no entry is dropped: nothing changes. */
  lemma DispatchDropsUnknown<O>(st: State<O>, id: Uuid, r: O)
    requires id !in st.registry
    ensures Dispatch(st, id, r) == st
  {
  }

  /** After a response has been dispatched, a query for the same id resolves at
      once with that response and attaches no waiter. */
  lemma DispatchThenQueryAnswersAtOnce<O>(st: State<O>, id: Uuid, r: O)
    requires id in st.registry
    ensures var d := Dispatch(st, id, r);
            var (q, f) := Query(d, id);
            q.futures[f] == Completed(Value(r)) && q.registry == d.registry
  {
  }

  /** A second response for a resolved id replaces the cached response (the
      handler always installs the latest one). */
  lemma DispatchReplacesCachedResponse<O>(st: State<O>, id: Uuid, r1: O, r2: O)
    requires id in st.registry
    ensures var d := Dispatch(Dispatch(st, id, r1), id, r2);
            id in d.registry && d.registry[id].value == Initialise(Some(r2))
  {
  }

  // ---------------------------------------------------------------------
  // The invariant and one-shot completion over whole runs

  lemma QueryKeepsWellFormed<O>(st: State<O>, id: Uuid)
    requires WellFormed(st)
    ensures WellFormed(Query(st, id).0)
  {
    QueryIsFreshAndLocal(st, id);
  }

  lemma DispatchKeepsWellFormed<O>(st: State<O>, id: Uuid, r: O)
    requires WellFormed(st)
    ensures WellFormed(Dispatch(st, id, r))
  {
    if id in st.registry {
      DispatchFansOut(st, id, r);
    }
  }

  lemma RegisterKeepsWellFormed<O>(st: State<O>, id: Uuid, sent: SendOutcome)
    requires WellFormed(st)
    ensures WellFormed(Register(st, id, sent))
  {
    var r := Register(st, id, sent);
    assert forall k :: k in r.registry && k !in st.registry ==> r.registry[k].value == Initialise(None);
    assert forall k :: k in st.registry ==> k in r.registry && r.registry[k] == st.registry[k];
  }

  lemma PublishKeepsWellFormed<O>(st: State<O>, retention: nat, id: Uuid, mapSent: SendOutcome, requestSent: SendOutcome)
    requires WellFormed(st)
    ensures WellFormed(Publish(st, retention, id, mapSent, requestSent))
  {
    RegisterKeepsWellFormed(st, id, Chained(mapSent, requestSent));
    SweepKeepsWellFormed(Register(st, id, Chained(mapSent, requestSent)), retention);
  }

  lemma StepKeepsWellFormed<O>(st: State<O>, retention: nat, e: Event<O>)
    requires WellFormed(st)
    ensures WellFormed(Step(st, retention, e))
  {
    match e
    case RequestPublished(id, mapSent, requestSent) => PublishKeepsWellFormed(st, retention, id, mapSent, requestSent);
    case ResponseQueried(id) => QueryKeepsWellFormed(st, id);
    case ResponseArrived(id, r) => DispatchKeepsWellFormed(st, id, r);
    case ClockAdvanced(_) =>
  }

  /** Every state reached from a well-formed one is well-formed. */
  lemma {:induction false} RunKeepsWellFormed<O>(st: State<O>, retention: nat, es: seq<Event<O>>)
    requires WellFormed(st)
    ensures WellFormed(Run(st, retention, es))
    decreases |es|
  {
    if es != [] {
      StepKeepsWellFormed(st, retention, es[0]);
      RunKeepsWellFormed(Step(st, retention, es[0]), retention, es[1..]);
    }
  }

  /** No step forgets a future, and no step changes a completed future. */
  lemma StepKeepsCompletions<O>(st: State<O>, retention: nat, e: Event<O>, f: FutureId)
    requires f < |st.futures| && st.futures[f].Completed?
    ensures |Step(st, retention, e).futures| >= |st.futures|
    ensures Step(st, retention, e).futures[f] == st.futures[f]
  {
  }

  /** A future, once completed, keeps its completion for the rest of any run
      of the API's operations. */
  lemma {:induction false} RunKeepsCompletions<O>(st: State<O>, retention: nat, es: seq<Event<O>>, f: FutureId)
    requires f < |st.futures| && st.futures[f].Completed?
    ensures |Run(st, retention, es).futures| >= |st.futures|
    ensures Run(st, retention, es).futures[f] == st.futures[f]
    decreases |es|
  {
    if es != [] {
      StepKeepsCompletions(st, retention, es[0], f);
      RunKeepsCompletions(Step(st, retention, es[0]), retention, es[1..], f);
    }
  }
}
