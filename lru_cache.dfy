/**
 * `LruCache`: a bounded map in access order (eldest first) whose entries
 * expire `ttlMs` milliseconds after they were written. The clock reading
 * is a parameter `now`.
 */
module Cache {
  import opened Entities

  datatype Entry<V> = Entry(value: V, timeMs: int)

  /** The contents of the cache: keys from least to most recently accessed, and the entries. */
  datatype State<K, V> = State(order: seq<K>, entries: map<K, Entry<V>>)

  predicate Distinct<K(==)>(s: seq<K>) {
    forall i, j :: 0 <= i < j < |s| ==> s[i] != s[j]
  }

  /** The order lists each key of the map exactly once. */
  ghost predicate WellFormed<K(!new), V>(st: State<K, V>) {
    Distinct(st.order) && forall k :: k in st.entries <==> k in st.order
  }

  /** `s` without `k`, the rest in the same order. */
  function Remove<K(==,!new)>(s: seq<K>, k: K): (r: seq<K>)
    ensures forall x :: x in r <==> x in s && x != k
    ensures Distinct(s) ==> Distinct(r)
    ensures Distinct(s) && k in s ==> |r| == |s| - 1
    ensures k !in s ==> r == s
  {
    if s == [] then []
    else if s[0] == k then Remove(s[1..], k)
    else
      var rest := Remove(s[1..], k);
      assert Distinct(s) ==> s[0] !in s[1..];
      [s[0]] + rest
  }

  /** Moves `k` to the most recently used end. */
  function Touch<K(==,!new)>(s: seq<K>, k: K): (r: seq<K>)
    ensures |r| > 0 && r[|r| - 1] == k
    ensures forall x :: x in r <==> x in s || x == k
    ensures Distinct(s) ==> Distinct(r)
  {
    Remove(s, k) + [k]
  }

  /** In a distinct order, removing the key at position `i` closes the gap and keeps the rest in order. */
  lemma {:induction false} RemoveAt<K(!new)>(s: seq<K>, i: int)
    requires Distinct(s) && 0 <= i < |s|
    ensures Remove(s, s[i]) == s[..i] + s[i + 1..]
  {
    if i == 0 {
      assert s[0] !in s[1..];
      assert s[..0] + s[1..] == s[1..];
    } else {
      assert Distinct(s[1..]);
      assert s[1..][i - 1] == s[i];
      RemoveAt(s[1..], i - 1);
      assert s[1..][..i - 1] == s[1..i] && s[1..][i..] == s[i + 1..];
      assert s[..i] == [s[0]] + s[1..i];
    }
  }

  /** An entry written at `timeMs` has expired at `now`: only with a positive ttl and an age strictly above it. */
  predicate Expired<V>(e: Entry<V>, now: int, ttlMs: int) {
    ttlMs > 0 && now - e.timeMs > ttlMs
  }

  /** `get(key)`: the new contents and the value, `None` standing for `null`. */
  function GetOutcome<K(==,!new), V>(st: State<K, V>, key: K, now: int, ttlMs: int): (State<K, V>, Option<V>) {
    if key !in st.entries then (st, None)
    else if Expired(st.entries[key], now, ttlMs) then (State(Remove(st.order, key), st.entries - {key}), None)
    else (State(Touch(st.order, key), st.entries), Some(st.entries[key].value))
  }

  /** `put(key, value)`: insert or refresh, then evict the eldest entry if the bound is exceeded. */
  function PutOutcome<K(==,!new), V>(st: State<K, V>, key: K, value: V, now: int, maxSize: int): State<K, V> {
    var order := Touch(st.order, key);
    var entries := st.entries[key := Entry(value, now)];
    if |entries| > maxSize && |order| > 0 then State(order[1..], entries - {order[0]})
    else State(order, entries)
  }

  // ---------------------------------------------------------------------------
  // Properties
  // ---------------------------------------------------------------------------

  /** A distinct sequence has as many elements as the set of its elements. */
  lemma {:induction false} DistinctCard<K>(s: seq<K>)
    requires Distinct(s)
    ensures |set x | x in s| == |s|
  {
    if s != [] {
      DistinctCard(s[1..]);
      assert (set x | x in s) == (set x | x in s[1..]) + {s[0]};
      assert s[0] !in s[1..];
    }
  }

  /** In a well-formed state the map has as many entries as the order has keys. */
  lemma SizeIsOrderLength<K(!new), V>(st: State<K, V>)
    requires WellFormed(st)
    ensures |st.entries| == |st.order|
  {
    DistinctCard(st.order);
    assert st.entries.Keys == set x | x in st.order;
  }

  /** `get` keeps the order and the map in step and never grows the cache. */
  lemma GetKeepsWellFormed<K(!new), V>(st: State<K, V>, key: K, now: int, ttlMs: int)
    requires WellFormed(st)
    ensures WellFormed(GetOutcome(st, key, now, ttlMs).0)
    ensures |GetOutcome(st, key, now, ttlMs).0.entries| <= |st.entries|
  {
  }

  /**
   * After every `put` the cache holds at most `maxSize` entries, and the
   * order and the map stay in step.
   */
  lemma PutKeepsBound<K(!new), V>(st: State<K, V>, key: K, value: V, now: int, maxSize: int)
    requires WellFormed(st) && 1 <= maxSize && |st.entries| <= maxSize
    ensures WellFormed(PutOutcome(st, key, value, now, maxSize))
    ensures |PutOutcome(st, key, value, now, maxSize).entries| <= maxSize
  {
    var order := Touch(st.order, key);
    var entries := st.entries[key := Entry(value, now)];
    var after := State(order, entries);
    assert WellFormed(after);
    SizeIsOrderLength(st);
    SizeIsOrderLength(after);
    if |entries| > maxSize {
      assert order[0] !in order[1..];
      var evicted := State(order[1..], entries - {order[0]});
      assert WellFormed(evicted);
      SizeIsOrderLength(evicted);
    }
  }

  /**
   * Which entry `put` evicts: none when the key was present or there was
   * room; otherwise exactly the least recently accessed one, never the
   * key just written. The written entry carries the new value and time.
   */
  lemma PutEvictsEldestOnly<K(!new), V>(st: State<K, V>, key: K, value: V, now: int, maxSize: int)
    requires WellFormed(st) && 1 <= maxSize && |st.entries| <= maxSize
    ensures var after := PutOutcome(st, key, value, now, maxSize);
      && key in after.entries && after.entries[key] == Entry(value, now)
      && after.order[|after.order| - 1] == key
      && (key in st.entries || |st.entries| < maxSize ==> after.entries.Keys == st.entries.Keys + {key})
      && (key !in st.entries && |st.entries| == maxSize ==>
            after.entries.Keys == st.entries.Keys + {key} - {st.order[0]} && st.order[0] != key)
      && forall k :: k in after.entries && k != key ==> after.entries[k] == st.entries[k]
  {
    var order := Touch(st.order, key);
    var entries := st.entries[key := Entry(value, now)];
    SizeIsOrderLength(st);
    SizeIsOrderLength(State(order, entries));
    if key !in st.entries && |st.entries| == maxSize {
      assert order == st.order + [key];
      assert |order| >= 2;
      assert order[0] == st.order[0];
    }
  }

  /** A value just written is read back at any moment within the ttl, and at any moment when the ttl is 0. */
  lemma PutThenGet<K(!new), V>(st: State<K, V>, key: K, value: V, now: int, later: int, maxSize: int, ttlMs: int)
    requires WellFormed(st) && 1 <= maxSize && |st.entries| <= maxSize
    requires ttlMs == 0 || later - now <= ttlMs
    ensures GetOutcome(PutOutcome(st, key, value, now, maxSize), key, later, ttlMs).1 == Some(value)
  {
    PutEvictsEldestOnly(st, key, value, now, maxSize);
  }

  /** A hit returns the stored value, keeps every entry and makes the key the most recently used. */
  lemma HitPromotes<K(!new), V>(st: State<K, V>, key: K, now: int, ttlMs: int)
    requires key in st.entries && !Expired(st.entries[key], now, ttlMs)
    ensures var (after, r) := GetOutcome(st, key, now, ttlMs);
      && r == Some(st.entries[key].value)
      && after.entries == st.entries
      && after.order[|after.order| - 1] == key
    ensures Distinct(st.order) ==> forall i :: 0 <= i < |st.order| && st.order[i] == key ==>
      GetOutcome(st, key, now, ttlMs).0.order == st.order[..i] + st.order[i + 1..] + [key]
  {
    if Distinct(st.order) {
      forall i | 0 <= i < |st.order| && st.order[i] == key {
        RemoveAt(st.order, i);
      }
    }
  }

  /** An entry whose age is exactly the ttl is still a hit. */
  lemma AgeEqualToTtlHits<K(!new), V>(st: State<K, V>, key: K, ttlMs: int)
    requires key in st.entries
    ensures GetOutcome(st, key, st.entries[key].timeMs + ttlMs, ttlMs).1 == Some(st.entries[key].value)
  {
  }

  /** With ttl 0 nothing ever expires. */
  lemma ZeroTtlNeverExpires<K(!new), V>(st: State<K, V>, key: K, now: int)
    requires key in st.entries
    ensures GetOutcome(st, key, now, 0) == (State(Touch(st.order, key), st.entries), Some(st.entries[key].value))
  {
  }

  /** An expired entry is removed, and only it, and the read is a miss. */
  lemma ExpiredIsRemoved<K(!new), V>(st: State<K, V>, key: K, now: int, ttlMs: int)
    requires WellFormed(st) && key in st.entries && ttlMs > 0 && now - st.entries[key].timeMs > ttlMs
    ensures var (after, r) := GetOutcome(st, key, now, ttlMs);
      && r == None
      && after.entries.Keys == st.entries.Keys - {key}
      && key !in after.order && |after.order| == |st.order| - 1
    ensures forall i :: 0 <= i < |st.order| && st.order[i] == key ==>
      GetOutcome(st, key, now, ttlMs).0.order == st.order[..i] + st.order[i + 1..]
  {
    forall i | 0 <= i < |st.order| && st.order[i] == key {
      RemoveAt(st.order, i);
    }
  }

  /** A read of an absent key is a miss that changes nothing. */
  lemma AbsentMissUnchanged<K(!new), V>(st: State<K, V>, key: K, now: int, ttlMs: int)
    requires key !in st.entries
    ensures GetOutcome(st, key, now, ttlMs) == (st, None)
  {
  }

  /** The in-place cache. */
  class LruCache<K(==,!new), V> {
    var order: seq<K>
    var entries: map<K, Entry<V>>
    const maxSize: int
    const ttlMs: int

    function View(): State<K, V>
      reads this
    {
      State(order, entries)
    }

    ghost predicate Valid()
      reads this
    {
      WellFormed(View()) && 1 <= maxSize && 0 <= ttlMs && |entries| <= maxSize
    }

    /** `new LruCache(maxSize, ttlMs)`: capacity clamped to at least 1 and ttl to at least 0. */
    constructor (maxSize: int, ttlMs: int)
      ensures Valid()
      ensures this.maxSize == if maxSize < 1 then 1 else maxSize
      ensures this.ttlMs == if ttlMs < 0 then 0 else ttlMs
      ensures View() == State([], map[])
    {
      this.maxSize := if maxSize < 1 then 1 else maxSize;
      this.ttlMs := if ttlMs < 0 then 0 else ttlMs;
      order := [];
      entries := map[];
    }

    /** `get(key)` at time `now` */
    method Get(key: K, now: int) returns (r: Option<V>)
      requires Valid()
      modifies this
      ensures Valid()
      ensures (View(), r) == GetOutcome(old(View()), key, now, ttlMs)
    {
      if key !in entries {
        return None;
      }
      var e := entries[key];
      if ttlMs > 0 && now - e.timeMs > ttlMs {
        GetKeepsWellFormed(View(), key, now, ttlMs);
        order := Remove(order, key);
        entries := entries - {key};
        return None;
      }
      order := Touch(order, key);
      r := Some(e.value);
    }

    /** `put(key, value)` at time `now` */
    method Put(key: K, value: V, now: int)
      requires Valid()
      modifies this
      ensures Valid()
      ensures View() == PutOutcome(old(View()), key, value, now, maxSize)
    {
      PutKeepsBound(View(), key, value, now, maxSize);
      entries := entries[key := Entry(value, now)];
      order := Touch(order, key);
      if |entries| > maxSize && |order| > 0 {
        var eldest := order[0];
        order := order[1..];
        entries := entries - {eldest};
      }
    }

    /** `clear()` */
    method Clear()
      requires Valid()
      modifies this
      ensures Valid()
      ensures View() == State([], map[])
    {
      order := [];
      entries := map[];
    }
  }
}
