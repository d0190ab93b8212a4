/**
 * `getAggregatedData`: cache-aside over the edge cache, with one cache
 * identity (`origin + '/data.json'`) shared by every view, a forced refresh
 * that skips the cache read, and entries that stay fresh for
 * `CACHE_TTL_SECONDS` after they are written. The request handlers of the
 * name-only and CSV views sit on top of it.
 */
module CacheAside {
  import opened Wrappers
  import opened JsonValues
  import opened RecordFetcher
  import opened Aggregator
  import opened NameView
  import opened CsvExport

  /** How long a cached aggregate is served, in seconds. */
  const CacheTtlSeconds: int := 3600

  /** A cached aggregate and the time it was written. */
  datatype CacheEntry = CacheEntry(data: seq<Row>, writtenAt: int)

  /** The cache identity every view uses: the request's origin followed by "/data.json". */
  function CacheKey(origin: string): string
  {
    origin + "/data.json"
  }

  /** An entry is served while less than the TTL has passed since it was written. */
  predicate IsFresh(e: CacheEntry, now: int)
  {
    now < e.writtenAt + CacheTtlSeconds
  }

  /** The worker: the two KV namespaces, the library calls, and the edge cache it owns. */
  class Worker {
    /** The namespaces as they are now; they are written by other systems, never by the worker. */
    var stores: Stores
    const rt: Runtime
    /** The edge cache: entries by cache key. */
    var cache: map<string, CacheEntry>
    /** For each cached entry, the namespaces it was built from. */
    ghost var builtFrom: map<string, Stores>
    /** How many times the aggregate has been rebuilt. */
    ghost var builds: nat
    /** The time of the latest request; requests arrive in time order. */
    ghost var clock: int

    /**
     * Every cached aggregate is the aggregate of the namespaces as they were
     * when it was built, and was written no later than the latest request.
     */
    ghost predicate Valid()
      reads this
    {
      && cache.Keys == builtFrom.Keys
      && (forall k :: k in cache ==> AggregateOf(builtFrom[k], rt) == Success(cache[k].data))
      && (forall k :: k in cache ==> cache[k].writtenAt <= clock)
    }

    constructor (stores: Stores, rt: Runtime, ghost start: int)
      ensures Valid()
      ensures this.stores == stores && this.rt == rt
      ensures cache == map[] && builds == 0 && clock == start
    {
      this.stores := stores;
      this.rt := rt;
      cache := map[];
      builtFrom := map[];
      builds := 0;
      clock := start;
    }

    /** Whether a request is answered from the cache: not forced, and a fresh entry exists. */
    ghost predicate Hit(origin: string, forceRefresh: bool, now: int)
      reads this
    {
      !forceRefresh && CacheKey(origin) in cache && IsFresh(cache[CacheKey(origin)], now)
    }

    /** What a request gets: the cached aggregate on a hit, a fresh build otherwise. */
    ghost function Served(origin: string, forceRefresh: bool, now: int): Result<seq<Row>, BuildError>
      reads this
    {
      if Hit(origin, forceRefresh, now) then Success(cache[CacheKey(origin)].data) else AggregateOf(stores, rt)
    }

    /**
     * `getAggregatedData`. A hit returns the cached aggregate, builds
     * nothing and leaves the cache alone; it is the aggregate of the
     * namespaces as they were at a request less than the TTL ago. Anything else (a forced
     * refresh, a missing or stale entry) builds once and returns the fresh
     * aggregate; a successful build is written back under the shared key with
     * the current time, and a failed one writes nothing.
     */
    method GetAggregatedData(origin: string, forceRefresh: bool, now: int) returns (r: Result<seq<Row>, BuildError>)
      requires Valid() && clock <= now
      modifies this
      ensures Valid()
      ensures stores == old(stores) && clock == now
      ensures r == old(Served(origin, forceRefresh, now))
      ensures old(Hit(origin, forceRefresh, now)) ==>
                && cache == old(cache) && builtFrom == old(builtFrom) && builds == old(builds)
                && AggregateOf(builtFrom[CacheKey(origin)], rt) == r
                && now - CacheTtlSeconds < cache[CacheKey(origin)].writtenAt <= now
      ensures !old(Hit(origin, forceRefresh, now)) ==>
                && builds == old(builds) + 1
                && r == AggregateOf(stores, rt)
                && (r.Success? ==> cache == old(cache)[CacheKey(origin) := CacheEntry(r.value, now)])
                && (r.Success? ==> builtFrom == old(builtFrom)[CacheKey(origin) := stores])
                && (r.Failure? ==> cache == old(cache) && builtFrom == old(builtFrom))
    {
      var key := CacheKey(origin);
      var response: Option<seq<Row>> := None;
      if !forceRefresh && key in cache && IsFresh(cache[key], now) {
        response := Some(cache[key].data);
      }
      if response.Some? {
        clock := now;
        return Success(response.value);
      }

      clock := now;
      r := BuildAggregatedData(stores, rt);
      builds := builds + 1;
      if r.Failure? {
        return;
      }
      // The background write of `event.waitUntil(cache.put(...))`, taken as done.
      cache := cache[key := CacheEntry(r.value, now)];
      builtFrom := builtFrom[key := stores];
    }

    /** Another system writes the namespaces; the cache keeps what it holds. */
    method StoresChanged(newStores: Stores)
      requires Valid()
      modifies this`stores
      ensures Valid() && stores == newStores
    {
      stores := newStores;
    }

    /** `handleOrgJson`: the names of the served aggregate, or the build's failure. */
    method HandleOrgJson(origin: string, forceRefresh: bool, now: int) returns (r: Result<seq<Json>, BuildError>)
      requires Valid() && clock <= now
      modifies this
      ensures Valid()
      ensures stores == old(stores) && clock == now
      ensures old(Served(origin, forceRefresh, now)).Success? ==>
                r == Success(OrgNames(old(Served(origin, forceRefresh, now)).value))
      ensures old(Served(origin, forceRefresh, now)).Failure? ==>
                r == Failure(old(Served(origin, forceRefresh, now)).error)
      ensures builds == if old(Hit(origin, forceRefresh, now)) then old(builds) else old(builds) + 1
      ensures old(Hit(origin, forceRefresh, now)) ==> cache == old(cache) && builtFrom == old(builtFrom)
      ensures !old(Hit(origin, forceRefresh, now)) && old(AggregateOf(stores, rt)).Success? ==>
                && cache == old(cache)[CacheKey(origin) := CacheEntry(old(AggregateOf(stores, rt)).value, now)]
                && builtFrom == old(builtFrom)[CacheKey(origin) := old(stores)]
      ensures !old(Hit(origin, forceRefresh, now)) && old(AggregateOf(stores, rt)).Failure? ==>
                cache == old(cache) && builtFrom == old(builtFrom)
    {
      var data := GetAggregatedData(origin, forceRefresh, now);
      match data
      case Failure(e) => r := Failure(e);
      case Success(rows) => r := Success(OrgNames(rows));
    }

    /** `handleCsvExport`: the CSV text of the served aggregate, or the build's failure. */
    method HandleCsvExport(origin: string, forceRefresh: bool, now: int) returns (r: Result<string, BuildError>)
      requires Valid() && clock <= now
      modifies this
      ensures Valid()
      ensures stores == old(stores) && clock == now
      ensures old(Served(origin, forceRefresh, now)).Success? ==>
                r == Success(JsonToCsv(old(Served(origin, forceRefresh, now)).value))
      ensures old(Served(origin, forceRefresh, now)).Failure? ==>
                r == Failure(old(Served(origin, forceRefresh, now)).error)
      ensures builds == if old(Hit(origin, forceRefresh, now)) then old(builds) else old(builds) + 1
      ensures old(Hit(origin, forceRefresh, now)) ==> cache == old(cache) && builtFrom == old(builtFrom)
      ensures !old(Hit(origin, forceRefresh, now)) && old(AggregateOf(stores, rt)).Success? ==>
                && cache == old(cache)[CacheKey(origin) := CacheEntry(old(AggregateOf(stores, rt)).value, now)]
                && builtFrom == old(builtFrom)[CacheKey(origin) := old(stores)]
      ensures !old(Hit(origin, forceRefresh, now)) && old(AggregateOf(stores, rt)).Failure? ==>
                cache == old(cache) && builtFrom == old(builtFrom)
    {
      var data := GetAggregatedData(origin, forceRefresh, now);
      match data
      case Failure(e) => r := Failure(e);
      case Success(rows) => r := Success(JsonToCsv(rows));
    }
  }

  /**
   * A request that rebuilds (forced, or finding no fresh entry), then a
   * non-forced one within the TTL: when the first succeeds the second returns
   * the same aggregate without building again.
   */
  method SecondReadWithinTtl(w: Worker, origin: string, forceFirst: bool, t1: int, t2: int)
    returns (r1: Result<seq<Row>, BuildError>, r2: Result<seq<Row>, BuildError>)
    requires w.Valid() && !w.Hit(origin, forceFirst, t1)
    requires w.clock <= t1 <= t2 < t1 + CacheTtlSeconds
    modifies w
    ensures w.Valid()
    ensures r1.Success? ==> r2 == r1 && w.builds == old(w.builds) + 1
  {
    r1 := w.GetAggregatedData(origin, forceFirst, t1);
    if r1.Success? {
      assert w.cache[CacheKey(origin)] == CacheEntry(r1.value, t1);
      assert w.Hit(origin, false, t2);
    }
    r2 := w.GetAggregatedData(origin, false, t2);
  }

  /**
   * The views share one cache entry: a CSV export within the TTL of a
   * refreshed full-data request is served from the entry that request wrote,
   * with no second build.
   */
  method ViewsShareTheEntry(w: Worker, origin: string, t1: int, t2: int)
    returns (data: Result<seq<Row>, BuildError>, csv: Result<string, BuildError>)
    requires w.Valid()
    requires w.clock <= t1 <= t2 < t1 + CacheTtlSeconds
    modifies w
    ensures w.Valid()
    ensures data.Success? ==> csv == Success(JsonToCsv(data.value)) && w.builds == old(w.builds) + 1
  {
    data := w.GetAggregatedData(origin, true, t1);
    if data.Success? {
      assert w.cache[CacheKey(origin)] == CacheEntry(data.value, t1);
      assert w.Hit(origin, false, t2);
    }
    csv := w.HandleCsvExport(origin, false, t2);
  }

  /**
   * The other direction of the shared entry: a data request within the TTL
   * of a refreshed CSV export is served the aggregate that export was built
   * from, with no second build.
   */
  method CsvThenData(w: Worker, origin: string, t1: int, t2: int)
    returns (csv: Result<string, BuildError>, data: Result<seq<Row>, BuildError>)
    requires w.Valid()
    requires w.clock <= t1 <= t2 < t1 + CacheTtlSeconds
    modifies w
    ensures w.Valid()
    ensures csv.Success? ==> data.Success? && csv.value == JsonToCsv(data.value) && w.builds == old(w.builds) + 1
  {
    csv := w.HandleCsvExport(origin, true, t1);
    if csv.Success? {
      assert w.Hit(origin, false, t2);
    }
    data := w.GetAggregatedData(origin, false, t2);
  }

  /**
   * Within the TTL the cache may be stale: after the namespaces change, a
   * non-forced request still gets the aggregate of the old namespaces, and
   * only a forced refresh sees the new ones.
   */
  method StaleWithinTtl(w: Worker, origin: string, newStores: Stores, t1: int, t2: int)
    returns (r1: Result<seq<Row>, BuildError>, r2: Result<seq<Row>, BuildError>, r3: Result<seq<Row>, BuildError>)
    requires w.Valid()
    requires w.clock <= t1 <= t2 < t1 + CacheTtlSeconds
    modifies w
    ensures w.Valid() && w.stores == newStores
    ensures r1 == AggregateOf(old(w.stores), w.rt)
    ensures r1.Success? ==> r2 == r1
    ensures r3 == AggregateOf(newStores, w.rt)
  {
    r1 := w.GetAggregatedData(origin, true, t1);
    w.StoresChanged(newStores);
    if r1.Success? {
      assert w.Hit(origin, false, t2);
    }
    r2 := w.GetAggregatedData(origin, false, t2);
    r3 := w.GetAggregatedData(origin, true, t2);
  }
}
