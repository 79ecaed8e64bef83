/**
 * `CatalogService`: read-through listings of the active barbers and the
 * active services, each behind its own `LruCache` (capacity 2, ttl one
 * minute) under a single key. The repository's `findAll` is passed in as
 * the sequence of documents it returns.
 */
module CatalogService {
  import opened Entities
  import opened Cache

  const BarbersKey: string := "barbers"
  const ServicesKey: string := "services"
  const CacheCapacity: int := 2
  const CacheTtlMs: int := 60000

  /** The stream filter `isActive` over `findAll()`, in repository order. */
  function ActiveOnly<T(==,!new)>(all: seq<(Id, T)>, isActive: T -> bool): (r: seq<(Id, T)>)
    ensures |r| <= |all|
    ensures forall x :: x in r <==> x in all && isActive(x.1)
  {
    if all == [] then []
    else if isActive(all[0].1) then [all[0]] + ActiveOnly(all[1..], isActive)
    else ActiveOnly(all[1..], isActive)
  }

  function BarberActive(b: Barber): bool { b.active }

  function ServiceActive(s: ServiceItem): bool { s.active }

  /** The filter keeps the repository's order: it is a subsequence of `findAll()`. */
  predicate Subsequence<T(==)>(r: seq<T>, s: seq<T>)
    decreases |s|
  {
    if r == [] then true
    else if s == [] then false
    else if r[0] == s[0] then Subsequence(r[1..], s[1..])
    else Subsequence(r, s[1..])
  }

  lemma {:induction false} ActiveOnlyInOrder<T(!new)>(all: seq<(Id, T)>, isActive: T -> bool)
    ensures Subsequence(ActiveOnly(all, isActive), all)
    decreases |all|
  {
    if all != [] {
      ActiveOnlyInOrder(all[1..], isActive);
      if !isActive(all[0].1) {
        SubsequenceSkip(ActiveOnly(all[1..], isActive), all);
      }
    }
  }

  /** Dropping the head of the longer sequence keeps a subsequence of its tail a subsequence. */
  lemma {:induction false} SubsequenceSkip<T>(r: seq<T>, s: seq<T>)
    requires s != [] && Subsequence(r, s[1..])
    ensures Subsequence(r, s)
    decreases |s|, 0
  {
    if r != [] && r[0] == s[0] {
      SubsequenceTail(r, s[1..]);
    }
  }

  /** A subsequence stays one after losing its head. */
  lemma {:induction false} SubsequenceTail<T>(r: seq<T>, s: seq<T>)
    requires r != [] && Subsequence(r, s)
    ensures Subsequence(r[1..], s)
    decreases |s|, 1
  {
    if r[0] == s[0] {
      if r[1..] != [] { SubsequenceSkip(r[1..], s); }
    } else {
      SubsequenceTail(r, s[1..]);
      if r[1..] != [] { SubsequenceSkip(r[1..], s); }
    }
  }

  /**
   * One read-through call on a cache holding `st`: a hit (any non-null
   * list, including an empty one) is returned as cached; a miss computes
   * `recomputed` and stores it under the key.
   */
  function ReadThrough<V>(st: State<string, V>, key: string, recomputed: V, now: int): (State<string, V>, V) {
    var (afterGet, cached) := GetOutcome(st, key, now, CacheTtlMs);
    if cached.Some? then (afterGet, cached.value)
    else (PutOutcome(afterGet, key, recomputed, now, CacheCapacity), recomputed)
  }

  /** A cache only ever written under `key` holds at most that key. */
  ghost predicate OnlyKey<V>(st: State<string, V>, key: string) {
    WellFormed(st) && forall k :: k in st.entries ==> k == key
  }

  /**
   * With a single key the capacity of 2 is never reached: a miss stores
   * the recomputed list and evicts nothing, and the cache still holds only that key.
   */
  lemma ReadThroughNeverEvicts<V>(st: State<string, V>, key: string, recomputed: V, now: int)
    requires OnlyKey(st, key)
    ensures OnlyKey(ReadThrough(st, key, recomputed, now).0, key)
    ensures |ReadThrough(st, key, recomputed, now).0.entries| == 1
    ensures ReadThrough(st, key, recomputed, now).0.entries[key].value == ReadThrough(st, key, recomputed, now).1
  {
    var (afterGet, cached) := GetOutcome(st, key, now, CacheTtlMs);
    GetKeepsWellFormed(st, key, now, CacheTtlMs);
    assert afterGet.entries.Keys <= {key};
    if cached.Some? {
      assert afterGet.entries.Keys == {key};
    } else {
      var order := Touch(afterGet.order, key);
      var entries := afterGet.entries[key := Entry(recomputed, now)];
      assert entries.Keys == {key};
      assert PutOutcome(afterGet, key, recomputed, now, CacheCapacity) == State(order, entries);
      assert WellFormed(State(order, entries));
    }
  }

  /** A hit within the ttl answers from the cache whatever the repository now holds. */
  lemma HitIgnoresRepository<V>(st: State<string, V>, key: string, recomputed: V, now: int)
    requires key in st.entries && now - st.entries[key].timeMs <= CacheTtlMs
    ensures ReadThrough(st, key, recomputed, now).1 == st.entries[key].value
  {
  }

  /** A miss answers the recomputed list, and a call within the next minute answers the same list. */
  lemma MissThenHit<V>(st: State<string, V>, key: string, recomputed: V, recomputed2: V, now: int, later: int)
    requires OnlyKey(st, key)
    requires GetOutcome(st, key, now, CacheTtlMs).1.None?
    requires later - now <= CacheTtlMs
    ensures ReadThrough(st, key, recomputed, now).1 == recomputed
    ensures ReadThrough(ReadThrough(st, key, recomputed, now).0, key, recomputed2, later).1 == recomputed
  {
    var afterGet := GetOutcome(st, key, now, CacheTtlMs).0;
    GetKeepsWellFormed(st, key, now, CacheTtlMs);
    assert afterGet.entries.Keys <= {key};
    SubsetCard(afterGet.entries.Keys, {key});
    PutThenGet(afterGet, key, recomputed, now, later, CacheCapacity, CacheTtlMs);
  }

  /** After `invalidate` the next call recomputes. */
  lemma ClearedRecomputes<V>(key: string, recomputed: V, now: int)
    ensures ReadThrough(State([], map[]), key, recomputed, now).1 == recomputed
  {
  }

  class CatalogService {
    const barberCache: LruCache<string, seq<(Id, Barber)>>
    const serviceCache: LruCache<string, seq<(Id, ServiceItem)>>

    ghost predicate Valid()
      reads this, barberCache, serviceCache
    {
      && barberCache as object != serviceCache as object
      && barberCache.Valid() && serviceCache.Valid()
      && barberCache.maxSize == CacheCapacity && barberCache.ttlMs == CacheTtlMs
      && serviceCache.maxSize == CacheCapacity && serviceCache.ttlMs == CacheTtlMs
    }

    constructor ()
      ensures Valid() && fresh(barberCache) && fresh(serviceCache)
      ensures barberCache.View() == State([], map[]) && serviceCache.View() == State([], map[])
    {
      barberCache := new LruCache(CacheCapacity, CacheTtlMs);
      serviceCache := new LruCache(CacheCapacity, CacheTtlMs);
    }

    /** `listActiveBarbers()`, given what `findAll()` would return now. */
    method ListActiveBarbers(all: seq<(Id, Barber)>, now: int) returns (r: seq<(Id, Barber)>)
      requires Valid()
      modifies barberCache
      ensures Valid()
      ensures (barberCache.View(), r) == ReadThrough(old(barberCache.View()), BarbersKey, ActiveOnly(all, BarberActive), now)
      ensures serviceCache.View() == old(serviceCache.View())
    {
      var cached := barberCache.Get(BarbersKey, now);
      if cached.Some? {
        return cached.value;
      }
      var recomputed := ActiveOnly(all, BarberActive);
      barberCache.Put(BarbersKey, recomputed, now);
      r := recomputed;
    }

    /** `listActiveServices()`, given what `findAll()` would return now. */
    method ListActiveServices(all: seq<(Id, ServiceItem)>, now: int) returns (r: seq<(Id, ServiceItem)>)
      requires Valid()
      modifies serviceCache
      ensures Valid()
      ensures (serviceCache.View(), r) == ReadThrough(old(serviceCache.View()), ServicesKey, ActiveOnly(all, ServiceActive), now)
      ensures barberCache.View() == old(barberCache.View())
    {
      var cached := serviceCache.Get(ServicesKey, now);
      if cached.Some? {
        return cached.value;
      }
      var recomputed := ActiveOnly(all, ServiceActive);
      serviceCache.Put(ServicesKey, recomputed, now);
      r := recomputed;
    }

    /** `invalidate()`: both caches emptied. */
    method Invalidate()
      requires Valid()
      modifies barberCache, serviceCache
      ensures Valid()
      ensures barberCache.View() == State([], map[]) && serviceCache.View() == State([], map[])
    {
      barberCache.Clear();
      serviceCache.Clear();
    }
  }
}
