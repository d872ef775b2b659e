/** The instance cache (cache.go): a map from instance ID to the last answer
    fetched for it, each entry kept for a time-to-live that depends on whether
    the instance exists. The mutex is left out (every operation is a function
    from the old map to the new one); the clock is given as parameters, in
    nanoseconds, and the fetch on a miss as the result it would return. */
module Cache {
  import opened Common
  import opened Api
  import opened VCloud

  datatype Entry = Entry(info: InstanceInfo, timestamp: int, ttl: nat)

  type Store = map<string, Entry>

  /** Above this many entries an insertion is followed by a sweep. */
  const SweepThreshold := 100

  /** time.Since(timestamp) > ttl, with `now` the clock at the check. */
  predicate Expired(e: Entry, now: int) {
    now - e.timestamp > e.ttl
  }

  /** How long an answer is kept: 30 seconds for an instance that exists,
      5 seconds for one that does not. */
  function TTLFor(info: InstanceInfo): nat {
    if info.present then InstanceCacheTTL else NonExistentCacheTTL
  }

  /** Every entry's TTL is the one its answer calls for. */
  predicate WellFormed(store: Store) {
    forall k :: k in store ==> store[k].ttl == TTLFor(store[k].info)
  }

  /** `get` answers from the map when the entry is present and not expired. */
  predicate Hit(store: Store, id: string, now: int) {
    id in store && !Expired(store[id], now)
  }

  /** The entries still fresh at `now`. */
  function Sweep(store: Store, now: int): Store {
    map k | k in store && !Expired(store[k], now) :: store[k]
  }

  /** cleanupOldEntriesLocked: one pass over the keys deleting every expired
      entry, as the Go loop that deletes while ranging over the map does. */
  method CleanupOldEntries(store: Store, now: int) returns (swept: Store)
    ensures forall k :: k in swept <==> k in store && !Expired(store[k], now)
    ensures forall k :: k in swept ==> swept[k] == store[k]
    ensures swept == Sweep(store, now)
  {
    swept := store;
    var pending := store.Keys;
    while pending != {}
      invariant pending <= store.Keys
      invariant forall k :: k in swept <==> k in store && (k in pending || !Expired(store[k], now))
      invariant forall k :: k in swept ==> swept[k] == store[k]
      decreases |pending|
    {
      var id :| id in pending;
      if Expired(store[id], now) {
        swept := swept - {id};
      }
      pending := pending - {id};
    }
  }

  /** The outcome of `get`: the map afterwards, the answer, and whether the
      API was asked. */
  datatype Lookup = Lookup(store: Store, result: Result<InstanceInfo>, fetched: bool)

  /** get(instanceID): `now` is the clock at the lookup, `fetch` what
      GetInstanceInfo returns on a miss, `after` the clock once it has returned
      (the new entry's timestamp and the sweep's reference time). */
  function Get(store: Store, id: string, now: int, fetch: Result<InstanceInfo>, after: int): (l: Lookup)
    // a fresh entry answers without a fetch and changes nothing
    ensures l.fetched <==> !Hit(store, id, now)
    ensures !l.fetched ==> l.store == store && l.result == Ok(store[id].info)
    // otherwise the fetch's answer is returned, error or not
    ensures l.fetched ==> l.result == fetch
    ensures l.fetched && fetch.Err? ==> l.store == store
    // a successful fetch is stored with the TTL its answer calls for
    ensures l.fetched && fetch.Ok? ==>
      id in l.store && l.store[id] == Entry(fetch.value, after, TTLFor(fetch.value))
    ensures l.fetched && fetch.Ok? ==>
      l.store[id].ttl == if fetch.value.present then 30 * Second else 5 * Second
    // no other entry is invented or altered, and fresh ones survive the sweep
    ensures forall k :: k in l.store && k != id ==> k in store && l.store[k] == store[k]
    ensures forall k :: k in store && k != id && !Expired(store[k], after) ==> k in l.store
    // at or below the threshold nothing is swept; above it only expired entries are
    ensures l.fetched && fetch.Ok? && |store[id := l.store[id]]| <= SweepThreshold ==>
      l.store == store[id := l.store[id]]
    ensures l.fetched && fetch.Ok? && |store[id := l.store[id]]| > SweepThreshold ==>
      l.store == Sweep(store[id := l.store[id]], after)
    ensures l.fetched && fetch.Ok? && |l.store| > SweepThreshold ==>
      forall k :: k in l.store ==> !Expired(l.store[k], after)
    ensures WellFormed(store) ==> WellFormed(l.store)
  {
    if Hit(store, id, now) then
      Lookup(store, Ok(store[id].info), false)
    else
      match fetch
      case Err(e) => Lookup(store, Err(e), true)
      case Ok(info) =>
        var inserted := store[id := Entry(info, after, TTLFor(info))];
        var kept := if |inserted| > SweepThreshold then Sweep(inserted, after) else inserted;
        Lookup(kept, Ok(info), true)
  }

  /** invalidate(instanceID) */
  function Invalidate(store: Store, id: string): (r: Store)
    ensures id !in r
    ensures forall k :: k != id ==> (k in r <==> k in store)
    ensures forall k :: k in r ==> r[k] == store[k]
  {
    store - {id}
  }

  /** clear() */
  function Clear(): (r: Store)
    ensures forall k :: k !in r
  {
    map[]
  }

  // ---------------------------------------------------------------------------
  // Properties across calls
  // ---------------------------------------------------------------------------

  /** After a successful fetch at `after`, a later get of the same ID answers
      from the map, without a fetch, exactly while the TTL has not run out. */
  lemma CachedAnswerServedWithinTTL(store: Store, id: string, now: int, fetch: Result<InstanceInfo>, after: int,
                                    later: int, fetch2: Result<InstanceInfo>, after2: int)
    requires !Hit(store, id, now) && fetch.Ok?
    ensures var l := Get(Get(store, id, now, fetch, after).store, id, later, fetch2, after2);
      && (!l.fetched <==> later - after <= TTLFor(fetch.value))
      && (!l.fetched ==> l.result == fetch)
  {
  }

  /** A failed fetch leaves an expired entry in place, so the next get fetches again. */
  lemma FailedFetchNotCached(store: Store, id: string, now: int, e: Error, after: int,
                             later: int, fetch2: Result<InstanceInfo>, after2: int)
    requires !Hit(store, id, now)
    requires id in store ==> later >= now
    ensures Get(Get(store, id, now, Err(e), after).store, id, later, fetch2, after2).fetched
  {
  }

  /** After invalidate, the next get goes to the API. */
  lemma InvalidateForcesFetch(store: Store, id: string, now: int, fetch: Result<InstanceInfo>, after: int)
    ensures Get(Invalidate(store, id), id, now, fetch, after).fetched
  {
  }

  lemma InvalidateIdempotent(store: Store, id: string)
    ensures Invalidate(Invalidate(store, id), id) == Invalidate(store, id)
  {
  }

  /** After clear, every get goes to the API. */
  lemma ClearForcesFetch(id: string, now: int, fetch: Result<InstanceInfo>, after: int)
    ensures Get(Clear(), id, now, fetch, after).fetched
  {
  }

  /** Invalidate keeps every entry's TTL consistent with its answer. */
  lemma InvalidatePreservesWellFormed(store: Store, id: string)
    requires WellFormed(store)
    ensures WellFormed(Invalidate(store, id))
  {
  }

  /** Clear leaves a map whose (absent) entries are trivially consistent. */
  lemma ClearWellFormed()
    ensures WellFormed(Clear())
  {
  }

  /** Fetching IDs one after another into an empty map, each successfully and
      with no sweep (fewer than a hundred of them), leaves exactly those IDs. */
  function FillAll(store: Store, ids: seq<string>, infos: seq<InstanceInfo>, t: int): Store
    requires |ids| == |infos|
    decreases |ids|
  {
    if ids == [] then store
    else FillAll(Get(store, ids[0], t, Ok(infos[0]), t).store, ids[1..], infos[1..], t)
  }

  lemma {:induction false} FillAllKeys(store: Store, ids: seq<string>, infos: seq<InstanceInfo>, t: int)
    requires |ids| == |infos|
    requires |store| + |ids| <= SweepThreshold
    requires forall k :: k in store ==> !Expired(store[k], t)
    ensures var r := FillAll(store, ids, infos, t);
      && (forall k :: k in r <==> k in store || k in ids)
      && (forall k :: k in r ==> !Expired(r[k], t))
    decreases |ids|
  {
    if ids != [] {
      var l := Get(store, ids[0], t, Ok(infos[0]), t);
      assert |l.store| <= |store| + 1 by {
        assert l.store.Keys <= store.Keys + {ids[0]};
        assert |store.Keys + {ids[0]}| <= |store| + 1;
        SubsetCard(l.store.Keys, store.Keys + {ids[0]});
      }
      FillAllKeys(l.store, ids[1..], infos[1..], t);
      forall k ensures k in ids <==> k == ids[0] || k in ids[1..] {
        assert ids == [ids[0]] + ids[1..];
      }
    }
  }

  lemma SubsetCard<T>(a: set<T>, b: set<T>)
    requires a <= b
    ensures |a| <= |b|
  {
    if a != {} {
      var x :| x in a;
      SubsetCard(a - {x}, b - {x});
    }
  }
}
