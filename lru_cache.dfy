/** `LRUCache` (performance_optimizer.py): a bounded key/value store with
    time-to-live expiry, an access-order queue for eviction, and hit, miss,
    eviction and expiry counters.

    The state is described once, as the value `CacheState`, with one
    transition function per operation (AfterGet, AfterPut, AfterClear); the
    class `LRUCache` keeps the source's separate fields and its methods are
    proved to make exactly those transitions. The clock reading `time.time()`
    is the explicit argument `now`. */
module Caching {
  import opened Wrappers

  datatype Counters = Counters(hits: nat, misses: nat, evictions: nat, expired: nat)

  /** The fields of one cache: `cache`, `timestamps`, `access_order`, `stats`. */
  datatype CacheState<V> = CacheState(
    cache: map<string, V>,
    timestamps: map<string, real>,
    accessOrder: seq<string>,
    counters: Counters)

  function Empty<V>(): CacheState<V>
  {
    CacheState(map[], map[], [], Counters(0, 0, 0, 0))
  }

  /** `deque.remove(x)`: drops the FIRST occurrence of `x`. */
  function RemoveFirst(s: seq<string>, x: string): (r: seq<string>)
    ensures x in s ==> |r| == |s| - 1
    ensures x !in s ==> r == s
    ensures multiset(r) == multiset(s) - multiset{x}
    ensures forall y :: y != x ==> (y in r <==> y in s)
  {
    if s == [] then []
    else if s[0] == x then
      assert s == [s[0]] + s[1..];
      s[1..]
    else
      assert s == [s[0]] + s[1..];
      [s[0]] + RemoveFirst(s[1..], x)
  }

  predicate Distinct(s: seq<string>)
  {
    forall i, j :: 0 <= i < j < |s| ==> s[i] != s[j]
  }

  function Elems(s: seq<string>): set<string>
  {
    set x | x in s
  }

  /** What every reachable state satisfies: the two maps share their keys
      and every cached key occurs in the access order. The access order may
      also hold keys that are no longer cached, and the same key twice,
      because an expired entry is dropped from the maps only. */
  ghost predicate Consistent<V>(s: CacheState<V>)
  {
    s.cache.Keys == s.timestamps.Keys && forall k :: k in s.cache ==> k in s.accessOrder
  }

  /** The shape the cache keeps as long as no read finds an expired entry:
      the access order lists each cached key exactly once and nothing else,
      and there are at most `maxsize` of them. */
  ghost predicate Tidy<V>(s: CacheState<V>, maxsize: int)
  {
    Consistent(s) && Distinct(s.accessOrder) && s.cache.Keys == Elems(s.accessOrder)
    && |s.accessOrder| <= maxsize
  }

  /** The entry for `key` is present and younger than `ttl` seconds at `now`. */
  predicate Live<V>(s: CacheState<V>, key: string, now: real, ttl: int)
    requires Consistent(s)
  {
    key in s.cache && now - s.timestamps[key] < ttl as real
  }

  /** `get(key)`: the new state and the value returned (`None` on a miss). */
  function AfterGet<V>(s: CacheState<V>, key: string, now: real, ttl: int): (r: (CacheState<V>, Option<V>))
    requires Consistent(s)
    ensures Consistent(r.0)
    ensures r.1.Some? <==> Live(s, key, now, ttl)
    ensures r.1.Some? ==> r.1.value == s.cache[key]
  {
    if key in s.cache then
      if now - s.timestamps[key] < ttl as real then
        var c := s.counters;
        (s.(accessOrder := RemoveFirst(s.accessOrder, key) + [key], counters := c.(hits := c.hits + 1)),
         Some(s.cache[key]))
      else
        var c := s.counters;
        (s.(cache := s.cache - {key}, timestamps := s.timestamps - {key},
            counters := c.(expired := c.expired + 1, misses := c.misses + 1)),
         None)
    else
      (s.(counters := s.counters.(misses := s.counters.misses + 1)), None)
  }

  /** `put(key, value)`: the new state, or the IndexError that `popleft` raises
      on an empty access order (which needs a non-positive `maxsize`). */
  function AfterPut<V>(s: CacheState<V>, key: string, value: V, now: real, maxsize: int): (r: Outcome<CacheState<V>>)
    requires Consistent(s)
    ensures r.Ok? ==> Consistent(r.value)
    ensures r.Raised? ==> key !in s.cache && s.cache == map[] && maxsize <= 0
  {
    if key in s.cache then
      Ok(s.(cache := s.cache[key := value], timestamps := s.timestamps[key := now],
            accessOrder := RemoveFirst(s.accessOrder, key) + [key]))
    else if |s.cache| >= maxsize then
      if s.accessOrder == [] then Raised("pop from an empty deque")
      else
        var oldest := s.accessOrder[0];
        assert forall k :: k in s.cache && k != oldest ==> k in s.accessOrder[1..] by {
          forall k | k in s.cache && k != oldest ensures k in s.accessOrder[1..] {
            var i :| 0 <= i < |s.accessOrder| && s.accessOrder[i] == k;
            assert s.accessOrder[1..][i - 1] == k;
          }
        }
        Ok(CacheState((s.cache - {oldest})[key := value], (s.timestamps - {oldest})[key := now],
                      s.accessOrder[1..] + [key],
                      s.counters.(evictions := s.counters.evictions + 1)))
    else
      Ok(s.(cache := s.cache[key := value], timestamps := s.timestamps[key := now],
            accessOrder := s.accessOrder + [key]))
  }

  /** `clear()`: entries and order go, the counters stay. */
  function AfterClear<V>(s: CacheState<V>): (r: CacheState<V>)
    ensures Consistent(r) && Tidy(r, 0)
    ensures r.cache == map[] && r.counters == s.counters
  {
    s.(cache := map[], timestamps := map[], accessOrder := [])
  }

  /** A get counts exactly one hit or one miss; it counts an expiry, and drops
      the entry, exactly when the key is cached but stale; a hit moves the key
      to the most-recently-used end of the access order. */
  lemma GetCounts<V>(s: CacheState<V>, key: string, now: real, ttl: int)
    requires Consistent(s)
    ensures var (t, r) := AfterGet(s, key, now, ttl);
      && t.counters.hits + t.counters.misses == s.counters.hits + s.counters.misses + 1
      && t.counters.hits == s.counters.hits + (if r.Some? then 1 else 0)
      && t.counters.evictions == s.counters.evictions
      && t.counters.expired == s.counters.expired + (if key in s.cache && r.None? then 1 else 0)
      && t.cache.Keys == (if key in s.cache && r.None? then s.cache.Keys - {key} else s.cache.Keys)
      && (r.Some? ==> t.accessOrder != [] && t.accessOrder[|t.accessOrder| - 1] == key)
      && (r.None? ==> t.accessOrder == s.accessOrder)
  {
  }

  /** A put that succeeds stores the value under the key with timestamp `now`,
      makes the key the most recently used, and touches only the eviction
      counter (by one, for a new key into a full cache). */
  lemma PutStores<V>(s: CacheState<V>, key: string, value: V, now: real, maxsize: int)
    requires Consistent(s) && AfterPut(s, key, value, now, maxsize).Ok?
    ensures var t := AfterPut(s, key, value, now, maxsize).value;
      && key in t.cache && t.cache[key] == value && t.timestamps[key] == now
      && t.accessOrder != [] && t.accessOrder[|t.accessOrder| - 1] == key
      && t.counters.hits == s.counters.hits && t.counters.misses == s.counters.misses
      && t.counters.expired == s.counters.expired
      && t.counters.evictions == s.counters.evictions + (if key !in s.cache && |s.cache| >= maxsize then 1 else 0)
      && (forall k :: k in s.cache && k != key && (key in s.cache || |s.cache| < maxsize) ==> k in t.cache && t.cache[k] == s.cache[k])
  {
  }

  datatype CacheStats = CacheStats(
    hits: nat, misses: nat, evictions: nat, expired: nat,
    totalRequests: nat, hitRate: real, cacheSize: nat)

  /** `get_stats()`. */
  function Stats<V>(s: CacheState<V>): (r: CacheStats)
    ensures r.totalRequests == r.hits + r.misses && r.cacheSize == |s.cache|
    ensures 0.0 <= r.hitRate <= 1.0
    ensures r.totalRequests > 0 ==> r.hitRate * r.totalRequests as real == r.hits as real
    ensures r.totalRequests == 0 ==> r.hitRate == 0.0
  {
    var c := s.counters;
    var total := c.hits + c.misses;
    CacheStats(c.hits, c.misses, c.evictions, c.expired, total,
               if total > 0 then c.hits as real / total as real else 0.0, |s.cache|)
  }

  /** A get never adds an entry or changes a stored value. */
  lemma GetNeverAdds<V>(s: CacheState<V>, key: string, now: real, ttl: int)
    requires Consistent(s)
    ensures var t := AfterGet(s, key, now, ttl).0;
      t.cache.Keys <= s.cache.Keys && forall k :: k in t.cache ==> t.cache[k] == s.cache[k]
  {
  }

  /** What a put stores, a later get returns for as long as it is younger
      than the TTL, and not after. */
  lemma PutThenGet<V>(s: CacheState<V>, key: string, value: V, now: real, later: real, maxsize: int, ttl: int)
    requires Consistent(s) && maxsize >= 1
    ensures AfterPut(s, key, value, now, maxsize).Ok?
    ensures AfterGet(AfterPut(s, key, value, now, maxsize).value, key, later, ttl).1
            == if later - now < ttl as real then Some(value) else None
  {
    PutStores(s, key, value, now, maxsize);
  }

  class LRUCache<V> {
    const maxsize: int
    const ttl: int
    var cache: map<string, V>
    var timestamps: map<string, real>
    var accessOrder: seq<string>
    var stats: Counters

    function State(): CacheState<V>
      reads this
    {
      CacheState(cache, timestamps, accessOrder, stats)
    }

    ghost predicate Valid()
      reads this
    {
      Consistent(State())
    }

    constructor(maxsize: int, ttl: int)
      ensures Valid() && this.maxsize == maxsize && this.ttl == ttl && State() == Empty()
    {
      this.maxsize := maxsize;
      this.ttl := ttl;
      cache := map[];
      timestamps := map[];
      accessOrder := [];
      stats := Counters(0, 0, 0, 0);
    }

    method Get(key: string, now: real) returns (r: Option<V>)
      requires Valid()
      modifies this
      ensures Valid()
      ensures (State(), r) == AfterGet(old(State()), key, now, ttl)
    {
      if key in cache {
        if now - timestamps[key] < ttl as real {
          accessOrder := RemoveFirst(accessOrder, key);
          accessOrder := accessOrder + [key];
          stats := stats.(hits := stats.hits + 1);
          return Some(cache[key]);
        } else {
          RemoveKey(key);
          stats := stats.(expired := stats.expired + 1);
        }
      }
      stats := stats.(misses := stats.misses + 1);
      return None;
    }

    method Put(key: string, value: V, now: real) returns (r: Outcome<()>)
      requires Valid()
      modifies this
      ensures Valid()
      ensures AfterPut(old(State()), key, value, now, maxsize).Ok? <==> r.Ok?
      ensures r.Ok? ==> State() == AfterPut(old(State()), key, value, now, maxsize).value
      ensures r.Raised? ==> State() == old(State()) && r == Raised("pop from an empty deque")
    {
      ghost var s0 := State();
      ghost var expected: CacheState<V>;
      if key in cache {
        // Update existing
        PutOverwriteShape(s0, key, value, now, maxsize);
        expected := AfterPut(s0, key, value, now, maxsize).value;
        accessOrder := RemoveFirst(accessOrder, key);
      } else if |cache| >= maxsize {
        // Evict least recently used
        if accessOrder == [] {
          return Raised("pop from an empty deque");
        }
        PutEvictShape(s0, key, value, now, maxsize);
        expected := AfterPut(s0, key, value, now, maxsize).value;
        var oldest := accessOrder[0];
        accessOrder := accessOrder[1..];
        RemoveKey(oldest);
        stats := stats.(evictions := stats.evictions + 1);
      } else {
        PutInsertShape(s0, key, value, now, maxsize);
        expected := AfterPut(s0, key, value, now, maxsize).value;
      }
      assert expected == CacheState(cache[key := value], timestamps[key := now], accessOrder + [key], stats);
      assert AfterPut(s0, key, value, now, maxsize) == Ok(expected);
      cache := cache[key := value];
      timestamps := timestamps[key := now];
      accessOrder := accessOrder + [key];
      r := Ok(());
    }

    /** `_remove_key`: drops the entry from both maps but not from the order. */
    method RemoveKey(key: string)
      requires cache.Keys == timestamps.Keys
      modifies this
      ensures cache == old(cache) - {key} && timestamps == old(timestamps) - {key}
      ensures accessOrder == old(accessOrder) && stats == old(stats)
    {
      if key in cache {
        cache := cache - {key};
        timestamps := timestamps - {key};
      } else {
        assert cache == cache - {key};
        assert timestamps == timestamps - {key};
      }
    }

    method Clear()
      modifies this
      ensures State() == AfterClear(old(State()))
    {
      cache := map[];
      timestamps := map[];
      accessOrder := [];
    }

    function GetStats(): (r: CacheStats)
      reads this
      ensures r == Stats(State())
    {
      Stats(State())
    }
  }

  // ---------------------------------------------------------------------
  // Properties of the transitions

  lemma DistinctTail(s: seq<string>)
    requires Distinct(s) && s != []
    ensures Distinct(s[1..]) && s[0] !in s[1..]
  {
    forall k | 0 <= k < |s[1..]| ensures s[1..][k] != s[0] {
      assert s[1..][k] == s[k + 1];
    }
  }

  lemma DistinctCons(a: string, t: seq<string>)
    requires Distinct(t) && a !in t
    ensures Distinct([a] + t)
  {
    var s := [a] + t;
    forall i, j | 0 <= i < j < |s| ensures s[i] != s[j] {
      assert s[j] == t[j - 1];
      if i > 0 {
        assert s[i] == t[i - 1];
      }
    }
  }

  lemma {:induction false} RemoveFirstDistinct(s: seq<string>, x: string)
    requires Distinct(s)
    ensures Distinct(RemoveFirst(s, x)) && x !in RemoveFirst(s, x)
    ensures Elems(RemoveFirst(s, x)) == Elems(s) - {x}
  {
    if s != [] {
      DistinctTail(s);
      if s[0] != x {
        RemoveFirstDistinct(s[1..], x);
        var t := RemoveFirst(s[1..], x);
        assert RemoveFirst(s, x) == [s[0]] + t;
        DistinctCons(s[0], t);
      }
    }
  }

  lemma {:induction false} DistinctCard(s: seq<string>)
    requires Distinct(s)
    ensures |Elems(s)| == |s|
  {
    if s != [] {
      DistinctCard(s[1..]);
      assert Elems(s) == {s[0]} + Elems(s[1..]);
      assert s[0] !in Elems(s[1..]);
    }
  }

  /** In the tidy shape the map and the access order have the same size,
      which is at most `maxsize`. */
  lemma TidySize<V>(s: CacheState<V>, maxsize: int)
    requires Tidy(s, maxsize)
    ensures |s.cache| == |s.accessOrder| <= maxsize
  {
    DistinctCard(s.accessOrder);
    assert s.cache.Keys == Elems(s.accessOrder);
  }

  /** A put into a tidy cache with a positive bound succeeds and keeps it tidy. */
  lemma TidyAfterPut<V>(s: CacheState<V>, key: string, value: V, now: real, maxsize: int)
    requires Tidy(s, maxsize) && maxsize >= 1
    ensures AfterPut(s, key, value, now, maxsize).Ok?
    ensures Tidy(AfterPut(s, key, value, now, maxsize).value, maxsize)
  {
    TidySize(s, maxsize);
    if key in s.cache {
      TidyAfterOverwrite(s, key, value, now, maxsize);
    } else if |s.cache| >= maxsize {
      TidyAfterEviction(s, key, value, now, maxsize);
    } else {
      TidyAfterInsert(s, key, value, now, maxsize);
    }
  }

  lemma TidyAfterInsert<V>(s: CacheState<V>, key: string, value: V, now: real, maxsize: int)
    requires Tidy(s, maxsize) && key !in s.cache && |s.cache| < maxsize
    ensures AfterPut(s, key, value, now, maxsize).Ok?
    ensures Tidy(AfterPut(s, key, value, now, maxsize).value, maxsize)
  {
    var o := s.accessOrder;
    assert |o| < maxsize by {
      TidySize(s, maxsize);
    }
    assert Distinct(o + [key]) && Elems(o + [key]) == s.cache.Keys + {key} by {
      assert key !in Elems(o);
      DistinctSnoc(o, key);
      ElemsSnoc(o, key);
    }
    PutInsertShape(s, key, value, now, maxsize);
  }

  /** The transition a put of a new key into a cache with room makes, written out. */
  lemma PutInsertShape<V>(s: CacheState<V>, key: string, value: V, now: real, maxsize: int)
    requires Consistent(s) && key !in s.cache && |s.cache| < maxsize
    ensures AfterPut(s, key, value, now, maxsize)
         == Ok(s.(cache := s.cache[key := value], timestamps := s.timestamps[key := now], accessOrder := s.accessOrder + [key]))
  {
  }

  lemma TidyAfterOverwrite<V>(s: CacheState<V>, key: string, value: V, now: real, maxsize: int)
    requires Tidy(s, maxsize) && key in s.cache
    ensures AfterPut(s, key, value, now, maxsize).Ok?
    ensures Tidy(AfterPut(s, key, value, now, maxsize).value, maxsize)
  {
    var o := s.accessOrder;
    var t := RemoveFirst(o, key);
    assert Distinct(t + [key]) && Elems(t + [key]) == s.cache.Keys && |t + [key]| == |o| by {
      assert key in o;
      RemoveFirstDistinct(o, key);
      DistinctSnoc(t, key);
      ElemsSnoc(t, key);
    }
    PutOverwriteShape(s, key, value, now, maxsize);
  }

  /** The transition a put of a cached key makes, written out. */
  lemma PutOverwriteShape<V>(s: CacheState<V>, key: string, value: V, now: real, maxsize: int)
    requires Consistent(s) && key in s.cache
    ensures AfterPut(s, key, value, now, maxsize)
         == Ok(s.(cache := s.cache[key := value], timestamps := s.timestamps[key := now],
                  accessOrder := RemoveFirst(s.accessOrder, key) + [key]))
  {
  }

  lemma TidyAfterEviction<V>(s: CacheState<V>, key: string, value: V, now: real, maxsize: int)
    requires Tidy(s, maxsize) && maxsize >= 1 && key !in s.cache && |s.cache| >= maxsize
    ensures AfterPut(s, key, value, now, maxsize).Ok?
    ensures Tidy(AfterPut(s, key, value, now, maxsize).value, maxsize)
  {
    var o := s.accessOrder;
    assert o != [] && |o| <= maxsize by {
      TidySize(s, maxsize);
    }
    assert Distinct(o[1..] + [key]) && |o[1..] + [key]| == |o|
           && Elems(o[1..] + [key]) == s.cache.Keys - {o[0]} + {key} by {
      assert key !in Elems(o);
      EvictionOrder(o, key);
    }
    PutEvictShape(s, key, value, now, maxsize);
  }

  /** Popping the head and appending a new key keeps an order duplicate-free. */
  lemma EvictionOrder(o: seq<string>, key: string)
    requires Distinct(o) && o != [] && key !in Elems(o)
    ensures Distinct(o[1..] + [key]) && |o[1..] + [key]| == |o|
    ensures Elems(o[1..] + [key]) == Elems(o) - {o[0]} + {key}
  {
    DistinctTail(o);
    DistinctSnoc(o[1..], key);
    assert o == [o[0]] + o[1..];
  }

  lemma ElemsSnoc(t: seq<string>, a: string)
    ensures Elems(t + [a]) == Elems(t) + {a}
  {
  }

  /** The transition a put of a new key into a full cache makes, written out. */
  lemma PutEvictShape<V>(s: CacheState<V>, key: string, value: V, now: real, maxsize: int)
    requires Consistent(s) && key !in s.cache && |s.cache| >= maxsize && s.accessOrder != []
    ensures AfterPut(s, key, value, now, maxsize)
         == Ok(CacheState((s.cache - {s.accessOrder[0]})[key := value], (s.timestamps - {s.accessOrder[0]})[key := now],
                          s.accessOrder[1..] + [key], s.counters.(evictions := s.counters.evictions + 1)))
  {
  }

  lemma DistinctSnoc(t: seq<string>, a: string)
    requires Distinct(t) && a !in t
    ensures Distinct(t + [a])
  {
    var s := t + [a];
    forall i, j | 0 <= i < j < |s| ensures s[i] != s[j] {
      assert s[i] == t[i];
      if j < |t| {
        assert s[j] == t[j];
      }
    }
  }

  /** A put of a new key into a full tidy cache evicts exactly the head of the
      access order, counts one eviction and leaves the size at `maxsize`. */
  lemma EvictsHead<V>(s: CacheState<V>, key: string, value: V, now: real, maxsize: int)
    requires Tidy(s, maxsize) && maxsize >= 1 && key !in s.cache && |s.cache| >= maxsize
    ensures s.accessOrder != []
    ensures AfterPut(s, key, value, now, maxsize).Ok?
    ensures AfterPut(s, key, value, now, maxsize).value.cache.Keys == s.cache.Keys - {s.accessOrder[0]} + {key}
    ensures |AfterPut(s, key, value, now, maxsize).value.cache| == maxsize
    ensures AfterPut(s, key, value, now, maxsize).value.counters.evictions == s.counters.evictions + 1
    ensures forall k :: k in s.cache && k != s.accessOrder[0] ==>
              k in AfterPut(s, key, value, now, maxsize).value.cache
              && AfterPut(s, key, value, now, maxsize).value.cache[k] == s.cache[k]
  {
    TidySize(s, maxsize);
    TidyAfterEviction(s, key, value, now, maxsize);
    PutEvictShape(s, key, value, now, maxsize);
    TidySize(AfterPut(s, key, value, now, maxsize).value, maxsize);
  }

  /** A get that does not find an expired entry keeps a cache tidy. */
  lemma TidyAfterGet<V>(s: CacheState<V>, key: string, now: real, ttl: int, maxsize: int)
    requires Tidy(s, maxsize) && (key in s.cache ==> Live(s, key, now, ttl))
    ensures Tidy(AfterGet(s, key, now, ttl).0, maxsize)
  {
    if key in s.cache {
      RemoveFirstDistinct(s.accessOrder, key);
      var o := AfterGet(s, key, now, ttl).0.accessOrder;
      assert Elems(o) == Elems(RemoveFirst(s.accessOrder, key)) + {key};
    }
  }

  /** One call on a cache, with the clock reading it sees. */
  datatype CacheOp<V> = GetOp(key: string, now: real) | PutOp(key: string, value: V, now: real) | ClearOp

  /** The state after a sequence of calls (a put that raises leaves the state as it was). */
  function Run<V>(s: CacheState<V>, ops: seq<CacheOp<V>>, maxsize: int, ttl: int): (r: CacheState<V>)
    requires Consistent(s)
    ensures Consistent(r)
    decreases |ops|
  {
    if ops == [] then s
    else
      var next := match ops[0]
        case GetOp(k, t) => AfterGet(s, k, t, ttl).0
        case PutOp(k, v, t) => (var p := AfterPut(s, k, v, t, maxsize); if p.Ok? then p.value else s)
        case ClearOp => AfterClear(s);
      Run(next, ops[1..], maxsize, ttl)
  }

  /** No get in the history finds an entry that has outlived its TTL. */
  ghost predicate ExpiryFree<V>(s: CacheState<V>, ops: seq<CacheOp<V>>, maxsize: int, ttl: int)
    requires Consistent(s)
    decreases |ops|
  {
    ops != [] ==>
      (match ops[0]
        case GetOp(k, t) => (k in s.cache ==> Live(s, k, t, ttl)) && ExpiryFree(AfterGet(s, k, t, ttl).0, ops[1..], maxsize, ttl)
        case PutOp(k, v, t) => (var p := AfterPut(s, k, v, t, maxsize); ExpiryFree(if p.Ok? then p.value else s, ops[1..], maxsize, ttl))
        case ClearOp => ExpiryFree(AfterClear(s), ops[1..], maxsize, ttl))
  }

  /** Over any history without expiry, a tidy cache stays tidy: the map never
      exceeds `maxsize` and its keys match the access order one to one. */
  lemma {:induction false} TidyRun<V>(s: CacheState<V>, ops: seq<CacheOp<V>>, maxsize: int, ttl: int)
    requires Tidy(s, maxsize) && maxsize >= 1 && ExpiryFree(s, ops, maxsize, ttl)
    ensures Tidy(Run(s, ops, maxsize, ttl), maxsize)
    ensures |Run(s, ops, maxsize, ttl).cache| == |Run(s, ops, maxsize, ttl).accessOrder| <= maxsize
    decreases |ops|
  {
    if ops == [] {
      TidySize(s, maxsize);
    } else {
      match ops[0]
      case GetOp(k, t) =>
        TidyAfterGet(s, k, t, ttl, maxsize);
        TidyRun(AfterGet(s, k, t, ttl).0, ops[1..], maxsize, ttl);
      case PutOp(k, v, t) =>
        TidyAfterPut(s, k, v, t, maxsize);
        TidyRun(AfterPut(s, k, v, t, maxsize).value, ops[1..], maxsize, ttl);
      case ClearOp =>
        TidyRun(AfterClear(s), ops[1..], maxsize, ttl);
    }
  }

  /** A put of a new key into a full cache whose access order starts with a
      key that is no longer cached (it expired on a read) pops that stale key,
      counts an eviction, frees nothing, and so leaves the cache one entry
      larger than before: past `maxsize`. */
  lemma StaleHeadOverflows<V>(s: CacheState<V>, key: string, value: V, now: real, maxsize: int)
    requires Consistent(s) && key !in s.cache && |s.cache| >= maxsize
    requires s.accessOrder != [] && s.accessOrder[0] !in s.cache
    ensures AfterPut(s, key, value, now, maxsize).Ok?
    ensures |AfterPut(s, key, value, now, maxsize).value.cache| == |s.cache| + 1 > maxsize
    ensures AfterPut(s, key, value, now, maxsize).value.counters.evictions == s.counters.evictions + 1
  {
    PutEvictShape(s, key, value, now, maxsize);
    assert s.cache - {s.accessOrder[0]} == s.cache;
  }

  /** The first put into an empty cache with room stores one entry. */
  lemma FirstPut<V>(key: string, value: V, now: real, maxsize: int)
    requires maxsize >= 1
    ensures AfterPut(Empty<V>(), key, value, now, maxsize)
         == Ok(CacheState(map[key := value], map[key := now], [key], Counters(0, 0, 0, 0)))
  {
    PutInsertShape(Empty<V>(), key, value, now, maxsize);
    assert Empty<V>().cache[key := value] == map[key := value];
    assert Empty<V>().timestamps[key := now] == map[key := now];
    assert Empty<V>().accessOrder + [key] == [key];
  }

  /** Reading the only entry once it has expired empties the maps but not the order. */
  lemma ExpiredRead<V>(key: string, value: V, stamp: real, now: real, ttl: int)
    requires now - stamp >= ttl as real
    ensures AfterGet(CacheState(map[key := value], map[key := stamp], [key], Counters(0, 0, 0, 0)), key, now, ttl)
         == (CacheState(map[], map[], [key], Counters(0, 1, 0, 1)), None)
  {
    assert map[key := value] - {key} == map[];
    assert map[key := stamp] - {key} == map[];
  }

  /** Such a state is reachable: with `maxsize` 1 and `ttl` 10, put a at 0,
      read it, expired, at 20, then put b at 20. The cache holds b alone while
      the stale a still heads the access order. */
  lemma StaleHeadReachable<V>(a: string, b: string, va: V, vb: V)
    requires a != b
    ensures AfterPut(Empty<V>(), a, va, 0.0, 1).Ok?
    ensures AfterPut(AfterGet(AfterPut(Empty<V>(), a, va, 0.0, 1).value, a, 20.0, 10).0, b, vb, 20.0, 1)
         == Ok(CacheState(map[b := vb], map[b := 20.0], [a, b], Counters(0, 1, 0, 1)))
  {
    var s1 := CacheState(map[a := va], map[a := 0.0], [a], Counters(0, 0, 0, 0));
    var s2 := CacheState(map[], map[], [a], Counters(0, 1, 0, 1));
    FirstPut(a, va, 0.0, 1);
    ExpiredRead(a, va, 0.0, 20.0, 10);
    PutInsertShape(s2, b, vb, 20.0, 1);
    assert s2.accessOrder + [b] == [a, b];
    assert s2.cache[b := vb] == map[b := vb];
    assert s2.timestamps[b := 20.0] == map[b := 20.0];
  }

  /** From that state, putting c at 21 leaves two entries in a cache bounded by 1. */
  lemma ExpiryOverflow<V>(a: string, b: string, c: string, vb: V, vc: V)
    requires a != b && b != c
    ensures var s := CacheState(map[b := vb], map[b := 20.0], [a, b], Counters(0, 1, 0, 1));
            var t := AfterPut(s, c, vc, 21.0, 1);
            t.Ok? && |t.value.cache| == 2 > 1 && t.value.counters.evictions == 1 && t.value.counters.expired == 1
  {
    StaleHeadOverflows(CacheState(map[b := vb], map[b := 20.0], [a, b], Counters(0, 1, 0, 1)), c, vc, 21.0, 1);
  }

  /** A read that hits moves the key off the head of the access order: when
      the tidy cache holds at least two entries, the next eviction takes some
      other key. */
  lemma HitIsNotEvictedNext<V>(s: CacheState<V>, key: string, now: real, ttl: int, maxsize: int)
    requires Tidy(s, maxsize) && Live(s, key, now, ttl) && |s.cache| >= 2
    ensures var t := AfterGet(s, key, now, ttl).0;
            t.accessOrder != [] && t.accessOrder[0] != key && t.accessOrder[|t.accessOrder| - 1] == key
  {
    TidySize(s, maxsize);
    RemoveFirstDistinct(s.accessOrder, key);
    var rest := RemoveFirst(s.accessOrder, key);
    assert key in s.accessOrder;
    assert |rest| >= 1 && rest[0] in rest;
  }

  /** Re-putting a key overwrites its value, refreshes its timestamp and evicts
      nothing: with `ttl` 10, put k at 0, put k again at 9, and a get at 15
      still hits and returns the second value. */
  lemma PutRefreshesTtl<V>(s: CacheState<V>, k: string, v1: V, v2: V, maxsize: int)
    requires Consistent(s) && maxsize >= 1
    ensures var s1 := AfterPut(s, k, v1, 0.0, maxsize).value;
            var s2 := AfterPut(s1, k, v2, 9.0, maxsize).value;
            s2.counters.evictions == s1.counters.evictions
            && AfterGet(s2, k, 15.0, 10).1 == Some(v2)
  {
  }
}
