/** The expiring map that holds the pending requests. Its implementation is not
    part of this model; its contract is: insert-if-absent never overwrites,
    compute-if-present does nothing (and answers "absent") when the key is
    missing, and remove-stale hands back, then drops, every entry older than the
    retention window. The wall clock is an explicit natural number. */
module ExpiringMaps {
  import opened Wrappers

  /** A stored value with the clock reading at which it was inserted. */
  datatype Timed<V> = Timed(value: V, stamp: nat)

  // An entry stamped `stamp` is stale at time `now` once strictly more than
  // `retention` has passed since it was inserted: `stamp + retention < now`.
  // The comparison is written out wherever it is needed.

  /** `insertIfAbsent`: the map after inserting `v` at time `now` unless `k` is present. */
  function Inserted<K(==), V>(m: map<K, Timed<V>>, k: K, v: V, now: nat): (r: map<K, Timed<V>>)
    ensures r.Keys == m.Keys + {k}
    ensures forall j :: j in m ==> r[j] == m[j]
    ensures k !in m ==> r[k] == Timed(v, now)
  {
    if k in m then m else m[k := Timed(v, now)]
  }

  /** `computeIfPresent`: the map after replacing the value under `k` by `f` of it,
      keeping its timestamp; the same map when `k` is absent. */
  function Computed<K(==), V>(m: map<K, Timed<V>>, k: K, f: V -> V): (r: map<K, Timed<V>>)
    ensures r.Keys == m.Keys
    ensures forall j :: j in m && j != k ==> r[j] == m[j]
    ensures k in m ==> r[k] == Timed(f(m[k].value), m[k].stamp)
  {
    if k in m then m[k := Timed(f(m[k].value), m[k].stamp)] else m
  }

  /** The keys a sweep at time `now` evicts; a helper of `Live` and `Expired`. */
  function StaleKeys<K(==), V>(m: map<K, Timed<V>>, now: nat, retention: nat): (r: set<K>)
    ensures r <= m.Keys
    ensures forall k :: k in m ==> (k in r <==> m[k].stamp + retention < now)
  {
    set k | k in m && m[k].stamp + retention < now
  }

  /** The entries that survive a sweep at time `now`. */
  function Live<K(==), V>(m: map<K, Timed<V>>, now: nat, retention: nat): (r: map<K, Timed<V>>)
    ensures r.Keys <= m.Keys
    ensures forall k :: k in m ==> (k in r <==> now <= m[k].stamp + retention)
    ensures forall k :: k in r ==> r[k] == m[k]
  {
    m - StaleKeys(m, now, retention)
  }

  /** The entries a sweep at time `now` evicts, with their timestamps. */
  function Expired<K(==), V>(m: map<K, Timed<V>>, now: nat, retention: nat): (r: map<K, Timed<V>>)
    ensures r.Keys <= m.Keys
    ensures forall k :: k in m ==> (k in r <==> m[k].stamp + retention < now)
    ensures forall k :: k in r ==> r[k] == m[k]
  {
    m - (m.Keys - StaleKeys(m, now, retention))
  }

  /** A sweep splits the map: every key either survives unchanged or is evicted. */
  lemma SweepPartitions<K, V>(m: map<K, Timed<V>>, now: nat, retention: nat)
    ensures Live(m, now, retention).Keys !! Expired(m, now, retention).Keys
    ensures Live(m, now, retention).Keys + Expired(m, now, retention).Keys == m.Keys
  {
  }

  /** An entry inserted at the current time survives a sweep at that time. */
  lemma FreshEntrySurvives<K, V>(m: map<K, Timed<V>>, k: K, v: V, now: nat, retention: nat)
    requires k !in m
    ensures var r := Live(Inserted(m, k, v, now), now, retention);
            k in r && r[k] == Timed(v, now)
  {
  }

  /** When no entry was inserted in the future, every entry left by a sweep is
      at most `retention` old. */
  lemma LiveEntriesAreRecent<K, V>(m: map<K, Timed<V>>, now: nat, retention: nat)
    requires forall k :: k in m ==> m[k].stamp <= now
    ensures forall k :: k in Live(m, now, retention) ==>
              Live(m, now, retention)[k].stamp <= now <= Live(m, now, retention)[k].stamp + retention
  {
  }

  class ExpiringMap<K(==), V> {
    const retention: nat
    var clock: nat
    var entries: map<K, Timed<V>>

    /** No entry was inserted in the future. */
    ghost predicate Valid()
      reads this
    {
      forall k :: k in entries ==> entries[k].stamp <= clock
    }

    constructor (retention: nat, clock: nat)
      ensures Valid()
      ensures this.retention == retention && this.clock == clock && entries == map[]
    {
      this.retention := retention;
      this.clock := clock;
      entries := map[];
    }

    /** The clock moves forward to `now`. */
    method Tick(now: nat)
      requires Valid() && clock <= now
      modifies this`clock
      ensures Valid() && clock == now
    {
      clock := now;
    }

    method InsertIfAbsent(k: K, v: V)
      requires Valid()
      modifies this`entries
      ensures Valid()
      ensures entries == Inserted(old(entries), k, v, clock)
    {
      entries := Inserted(entries, k, v, clock);
    }

    /** `r` is the new value under `k`, or `None` (Java's null) when `k` is absent. */
    method ComputeIfPresent(k: K, f: V -> V) returns (r: Option<V>)
      requires Valid()
      modifies this`entries
      ensures Valid()
      ensures entries == Computed(old(entries), k, f)
      ensures r == if k in old(entries) then Some(f(old(entries)[k].value)) else None
    {
      if k in entries {
        r := Some(f(entries[k].value));
      } else {
        r := None;
      }
      entries := Computed(entries, k, f);
    }

    /** The value under `k`, read without changing the map. */
    method Lookup(k: K) returns (r: Option<V>)
      ensures k in entries ==> r == Some(entries[k].value)
      ensures k !in entries ==> r == None
    {
      r := if k in entries then Some(entries[k].value) else None;
    }

    /** `removeStale`: `evicted` holds the entries the caller's callback is run on;
        they are gone from the map afterwards. */
    method RemoveStale() returns (evicted: map<K, Timed<V>>)
      requires Valid()
      modifies this`entries
      ensures Valid()
      ensures entries == Live(old(entries), clock, retention)
      ensures evicted == Expired(old(entries), clock, retention)
      ensures forall k :: k in entries ==> entries[k].stamp <= clock <= entries[k].stamp + retention
    {
      evicted := Expired(entries, clock, retention);
      entries := Live(entries, clock, retention);
    }
  }
}
