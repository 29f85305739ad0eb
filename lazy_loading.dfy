/**
 * The bounded least-recently-used cache of the performance layer.
 *
 * The cache keeps a JavaScript `Map`, whose iteration order is insertion
 * order; `get` and `set` re-insert a key (delete, then set) to make it the most
 * recently used, and `set` of a new key deletes the first key when the map
 * already holds `maxSize` entries.
 */
module LazyLoading {
  import opened Common

  /** The default capacity of a cache built without an argument. */
  const DefaultMaxSize: int := 100

  /** A JavaScript `Map`: its keys in insertion order and the value under each. */
  datatype OrderedMap<K, V> = OrderedMap(keys: seq<K>, values: map<K, V>)

  function Elems<T>(s: seq<T>): set<T> {
    set i | 0 <= i < |s| :: s[i]
  }

  /** A map's key order lists every stored key exactly once. */
  ghost predicate WellFormed<K, V>(m: OrderedMap<K, V>) {
    NoDuplicates(m.keys) && m.values.Keys == Elems(m.keys)
  }

  /** `s` without the element `k`, the others in their order. */
  function Remove<K(==)>(s: seq<K>, k: K): (r: seq<K>)
    ensures k !in r && |r| <= |s|
    ensures forall i :: 0 <= i < |r| ==> r[i] in s
  {
    if s == [] then []
    else if s[0] == k then Remove(s[1..], k)
    else [s[0]] + Remove(s[1..], k)
  }

  function Empty<K, V>(): OrderedMap<K, V> { OrderedMap([], map[]) }

  /** `Map.prototype.set`: an existing key keeps its position, a new one goes last. */
  function MapSet<K(==), V>(m: OrderedMap<K, V>, k: K, v: V): OrderedMap<K, V> {
    if k in m.values then OrderedMap(m.keys, m.values[k := v])
    else OrderedMap(m.keys + [k], m.values[k := v])
  }

  /** `Map.prototype.delete`. */
  function MapDelete<K(==), V>(m: OrderedMap<K, V>, k: K): OrderedMap<K, V> {
    OrderedMap(Remove(m.keys, k), m.values - {k})
  }

  /**
   * Deleting `keys().next().value`: the first key, or nothing when the map is
   * empty (the iterator then yields `undefined`, which is not a key).
   */
  function DeleteFirst<K(==), V>(m: OrderedMap<K, V>): OrderedMap<K, V> {
    if m.keys == [] then m else MapDelete(m, m.keys[0])
  }

  /** The number of entries a cache of this `maxSize` can hold: `set` always inserts. */
  function Capacity(maxSize: int): (c: nat)
    ensures c >= 1
    ensures maxSize >= 1 ==> c == maxSize
  {
    if maxSize >= 1 then maxSize else 1
  }

  // ---------------------------------------------------------------------------
  // What `get` and `set` do, stated on the map's contents and order
  // ---------------------------------------------------------------------------

  /** The value `get` returns. */
  function Lookup<K(==), V>(m: OrderedMap<K, V>, k: K): Option<V> {
    if k in m.values then Some(m.values[k]) else None
  }

  /** The map after `get(k)`: a present key moves to the most-recently-used end. */
  function AfterGet<K(==), V>(m: OrderedMap<K, V>, k: K): OrderedMap<K, V> {
    if k in m.values then OrderedMap(Remove(m.keys, k) + [k], m.values) else m
  }

  /**
   * The map after `set(k, v)`: an existing key is refreshed and moved last; a
   * new key evicts the least recently used one when the cache is full.
   */
  function AfterSet<K(==), V>(m: OrderedMap<K, V>, k: K, v: V, maxSize: int): OrderedMap<K, V> {
    if k in m.values then OrderedMap(Remove(m.keys, k) + [k], m.values[k := v])
    else if |m.keys| >= maxSize && m.keys != [] then
      OrderedMap(m.keys[1..] + [k], (m.values - {m.keys[0]})[k := v])
    else OrderedMap(m.keys + [k], m.values[k := v])
  }

  // ---------------------------------------------------------------------------
  // The class
  // ---------------------------------------------------------------------------

  class LRUCache<K(==), V> {
    var cache: OrderedMap<K, V>
    const maxSize: int

    ghost predicate Valid()
      reads this
    {
      WellFormed(cache) && |cache.keys| <= Capacity(maxSize)
    }

    constructor (maxSize: int := DefaultMaxSize)
      ensures Valid()
      ensures this.maxSize == maxSize && cache == Empty()
    {
      this.maxSize := maxSize;
      cache := Empty();
    }

    method Get(key: K) returns (r: Option<V>)
      requires Valid()
      modifies this
      ensures Valid()
      ensures r == Lookup(old(cache), key)
      ensures cache == AfterGet(old(cache), key)
    {
      if key in cache.values {
        var value := cache.values[key];
        cache := MapDelete(cache, key);
        cache := MapSet(cache, key, value);
        r := Some(value);
      } else {
        r := None;
      }
      GetPreserves(old(cache), key, maxSize);
    }

    method Set(key: K, value: V)
      requires Valid()
      modifies this
      ensures Valid()
      ensures cache == AfterSet(old(cache), key, value, maxSize)
    {
      ghost var before := cache;
      if key in cache.values {
        cache := MapDelete(cache, key);
      } else if |cache.keys| >= maxSize {
        if cache.keys != [] {
          RemoveAt(cache.keys, cache.keys[0], 0);
        }
        cache := DeleteFirst(cache);
      }
      cache := MapSet(cache, key, value);
      SetPreserves(before, key, value, maxSize);
    }

    method Clear()
      requires Valid()
      modifies this
      ensures Valid() && cache == Empty()
    {
      cache := Empty();
    }

    method Size() returns (n: nat)
      requires Valid()
      ensures n == |cache.values|
      ensures n <= Capacity(maxSize)
    {
      n := |cache.keys|;
      DistinctCardinality(cache.keys);
    }
  }

  // ---------------------------------------------------------------------------
  // Lemmas
  // ---------------------------------------------------------------------------

  /** A key list without duplicates has as many distinct keys as entries. */
  lemma {:induction false} DistinctCardinality<K>(s: seq<K>)
    requires NoDuplicates(s)
    ensures |Elems(s)| == |s|
  {
    if s != [] {
      DistinctCardinality(s[1..]);
      assert Elems(s) == {s[0]} + Elems(s[1..]);
      assert s[0] !in Elems(s[1..]);
    }
  }

  /** Removing a key that occurs once, at index `i`, keeps every other key in its order. */
  lemma {:induction false} RemoveAt<K>(s: seq<K>, k: K, i: nat)
    requires NoDuplicates(s) && i < |s| && s[i] == k
    ensures Remove(s, k) == s[..i] + s[i + 1..]
  {
    if i == 0 {
      assert k !in s[1..];
      RemoveAbsent(s[1..], k);
    } else {
      RemoveAt(s[1..], k, i - 1);
      assert s[..i] + s[i + 1..] == [s[0]] + (s[1..][..i - 1] + s[1..][i..]);
    }
  }

  /** Removing an absent key changes nothing. */
  lemma {:induction false} RemoveAbsent<K>(s: seq<K>, k: K)
    requires k !in s
    ensures Remove(s, k) == s
  {
    if s != [] {
      RemoveAbsent(s[1..], k);
    }
  }

  /** Re-inserting a key at the end and then removing it gives back the list before. */
  lemma {:induction false} RemoveAppended<K>(s: seq<K>, k: K)
    requires k !in s
    ensures Remove(s + [k], k) == s
  {
    if s == [] {
      assert [] + [k] == [k];
    } else {
      assert (s + [k])[1..] == s[1..] + [k];
      RemoveAppended(s[1..], k);
    }
  }

  lemma ElemsAppend<K>(s: seq<K>, k: K)
    ensures Elems(s + [k]) == Elems(s) + {k}
  {
    assert (s + [k])[|s|] == k;
    forall x | x in Elems(s) ensures x in Elems(s + [k]) {
      var j :| 0 <= j < |s| && s[j] == x;
      assert (s + [k])[j] == x;
    }
  }

  /** Removing a present key from a list without duplicates. */
  lemma RemovePresent<K>(s: seq<K>, k: K)
    requires NoDuplicates(s) && k in s
    ensures NoDuplicates(Remove(s, k)) && |Remove(s, k)| == |s| - 1
    ensures Elems(Remove(s, k)) == Elems(s) - {k}
  {
    var i :| 0 <= i < |s| && s[i] == k;
    RemoveAt(s, k, i);
    DropKeepsDistinct(s, i);
    DropElems(s, i);
  }

  lemma DropKeepsDistinct<K>(s: seq<K>, i: nat)
    requires NoDuplicates(s) && i < |s|
    ensures NoDuplicates(s[..i] + s[i + 1..])
  {
    var r := s[..i] + s[i + 1..];
    forall a, b | 0 <= a < b < |r| ensures r[a] != r[b] {
      var a' := if a < i then a else a + 1;
      var b' := if b < i then b else b + 1;
      assert r[a] == s[a'] && r[b] == s[b'];
    }
  }

  lemma DropElems<K>(s: seq<K>, i: nat)
    requires NoDuplicates(s) && i < |s|
    ensures Elems(s[..i] + s[i + 1..]) == Elems(s) - {s[i]}
  {
    var r := s[..i] + s[i + 1..];
    forall x | x in Elems(s) - {s[i]} ensures x in Elems(r) {
      var j :| 0 <= j < |s| && s[j] == x;
      assert r[if j < i then j else j - 1] == x;
    }
    forall x | x in Elems(r) ensures x in Elems(s) - {s[i]} {
      var j :| 0 <= j < |r| && r[j] == x;
      assert x == s[if j < i then j else j + 1];
    }
  }

  /** `get` keeps the cache well formed and within its capacity. */
  lemma GetPreserves<K, V>(m: OrderedMap<K, V>, k: K, maxSize: int)
    requires WellFormed(m) && |m.keys| <= Capacity(maxSize)
    ensures WellFormed(AfterGet(m, k)) && |AfterGet(m, k).keys| == |m.keys|
    ensures k in m.values ==>
      MapSet(MapDelete(m, k), k, m.values[k]) == AfterGet(m, k)
  {
    if k in m.values {
      RemovePresent(m.keys, k);
      assert (m.values - {k})[k := m.values[k]] == m.values;
      ElemsAppend(Remove(m.keys, k), k);
    }
  }

  /** `set` keeps the cache well formed and within its capacity. */
  lemma SetPreserves<K, V>(m: OrderedMap<K, V>, k: K, v: V, maxSize: int)
    requires WellFormed(m) && |m.keys| <= Capacity(maxSize)
    ensures WellFormed(AfterSet(m, k, v, maxSize))
    ensures |AfterSet(m, k, v, maxSize).keys| <= Capacity(maxSize)
    ensures MapSet(if k in m.values then MapDelete(m, k)
                   else if |m.keys| >= maxSize then DeleteFirst(m) else m, k, v)
            == AfterSet(m, k, v, maxSize)
  {
    if k in m.values {
      SetPresentPreserves(m, k, v);
    } else if |m.keys| >= maxSize && m.keys != [] {
      SetEvictPreserves(m, k, v);
    } else {
      ElemsAppend(m.keys, k);
    }
  }

  lemma SetPresentPreserves<K, V>(m: OrderedMap<K, V>, k: K, v: V)
    requires WellFormed(m) && k in m.values
    ensures var r := OrderedMap(Remove(m.keys, k) + [k], m.values[k := v]);
      WellFormed(r) && |r.keys| == |m.keys| && MapSet(MapDelete(m, k), k, v) == r
  {
    RemovePresent(m.keys, k);
    ElemsAppend(Remove(m.keys, k), k);
  }

  lemma SetEvictPreserves<K, V>(m: OrderedMap<K, V>, k: K, v: V)
    requires WellFormed(m) && k !in m.values && m.keys != []
    ensures var r := OrderedMap(m.keys[1..] + [k], (m.values - {m.keys[0]})[k := v]);
      WellFormed(r) && |r.keys| == |m.keys| && MapSet(DeleteFirst(m), k, v) == r
  {
    EvictFirst(m);
    EvictedKeys(m.keys, k);
    assert (m.values - {m.keys[0]})[k := v].Keys == (m.values.Keys - {m.keys[0]}) + {k};
  }

  /** Deleting the first key of a well-formed map drops exactly that key. */
  lemma EvictFirst<K, V>(m: OrderedMap<K, V>)
    requires WellFormed(m) && m.keys != []
    ensures DeleteFirst(m) == OrderedMap(m.keys[1..], m.values - {m.keys[0]})
  {
    RemoveAt(m.keys, m.keys[0], 0);
    assert m.keys[..0] + m.keys[1..] == m.keys[1..];
  }

  /** Dropping the first key and appending an absent one keeps the keys distinct. */
  lemma EvictedKeys<K>(keys: seq<K>, k: K)
    requires NoDuplicates(keys) && keys != [] && k !in Elems(keys)
    ensures NoDuplicates(keys[1..] + [k])
    ensures Elems(keys[1..] + [k]) == (Elems(keys) - {keys[0]}) + {k}
  {
    ElemsTail(keys);
    assert k !in keys[1..];
    NoDuplicatesAppend(keys[1..], k);
    ElemsAppend(keys[1..], k);
  }

  lemma ElemsTail<K>(s: seq<K>)
    requires NoDuplicates(s) && s != []
    ensures Elems(s) == {s[0]} + Elems(s[1..]) && s[0] !in Elems(s[1..])
  {
    forall x | x in Elems(s) ensures x in {s[0]} + Elems(s[1..]) {
      var j :| 0 <= j < |s| && s[j] == x;
      if j > 0 {
        assert s[1..][j - 1] == x;
      }
    }
  }

  lemma NoDuplicatesAppend<K>(s: seq<K>, k: K)
    requires NoDuplicates(s) && k !in s
    ensures NoDuplicates(s + [k])
  {
  }

  /**
   * `get` of a present key returns its value and moves it to the
   * most-recently-used end; every other key keeps its relative order.
   */
  lemma GetHit<K, V>(m: OrderedMap<K, V>, k: K, i: nat)
    requires WellFormed(m) && i < |m.keys| && m.keys[i] == k
    ensures Lookup(m, k) == Some(m.values[k])
    ensures AfterGet(m, k).keys == m.keys[..i] + m.keys[i + 1..] + [k]
    ensures AfterGet(m, k).values == m.values
  {
    RemoveAt(m.keys, k, i);
  }

  /** `get` of an absent key returns nothing and changes neither contents nor order. */
  lemma GetMiss<K, V>(m: OrderedMap<K, V>, k: K)
    requires k !in m.values
    ensures Lookup(m, k) == None && AfterGet(m, k) == m
  {
  }

  /** `set` of an existing key replaces its value, moves it last and keeps the size. */
  lemma SetExisting<K, V>(m: OrderedMap<K, V>, k: K, v: V, maxSize: int, i: nat)
    requires WellFormed(m) && i < |m.keys| && m.keys[i] == k
    ensures AfterSet(m, k, v, maxSize).keys == m.keys[..i] + m.keys[i + 1..] + [k]
    ensures AfterSet(m, k, v, maxSize).values == m.values[k := v]
    ensures |AfterSet(m, k, v, maxSize).keys| == |m.keys|
  {
    RemoveAt(m.keys, k, i);
  }

  /**
   * `set` of a new key into a full cache evicts exactly one key, the least
   * recently used (first) one, and appends the new key.
   */
  lemma SetEvictsOldest<K, V>(m: OrderedMap<K, V>, k: K, v: V, maxSize: int)
    requires WellFormed(m) && k !in m.values && |m.keys| >= maxSize && m.keys != []
    ensures AfterSet(m, k, v, maxSize).keys == m.keys[1..] + [k]
    ensures AfterSet(m, k, v, maxSize).values.Keys == m.values.Keys - {m.keys[0]} + {k}
    ensures m.keys[0] !in AfterSet(m, k, v, maxSize).values
    ensures |AfterSet(m, k, v, maxSize).keys| == |m.keys|
  {
    assert m.keys[0] in Elems(m.keys);
  }

  /** `set` of a new key into a cache with room appends it and evicts nothing. */
  lemma SetWithRoom<K, V>(m: OrderedMap<K, V>, k: K, v: V, maxSize: int)
    requires k !in m.values && (|m.keys| < maxSize || m.keys == [])
    ensures AfterSet(m, k, v, maxSize).keys == m.keys + [k]
    ensures AfterSet(m, k, v, maxSize).values == m.values[k := v]
  {
  }

  /** `get(k)` right after `set(k, v)` returns `v` and leaves the cache as `set` left it. */
  lemma GetAfterSet<K, V>(m: OrderedMap<K, V>, k: K, v: V, maxSize: int)
    requires WellFormed(m) && |m.keys| <= Capacity(maxSize)
    ensures Lookup(AfterSet(m, k, v, maxSize), k) == Some(v)
    ensures AfterGet(AfterSet(m, k, v, maxSize), k) == AfterSet(m, k, v, maxSize)
  {
    var prefix := if k in m.values then Remove(m.keys, k)
                  else if |m.keys| >= maxSize && m.keys != [] then m.keys[1..]
                  else m.keys;
    assert AfterSet(m, k, v, maxSize).keys == prefix + [k];
    if k !in m.values {
      assert k !in Elems(m.keys);
    }
    RemoveAppended(prefix, k);
  }

  /** The operations a caller can apply to a cache. */
  datatype Op<K, V> = GetOp(key: K) | SetOp(key: K, value: V) | ClearOp

  /** The cache after applying `ops` in order. */
  function Run<K(==), V>(m: OrderedMap<K, V>, ops: seq<Op<K, V>>, maxSize: int): OrderedMap<K, V>
    decreases |ops|
  {
    if ops == [] then m
    else
      var next := match ops[0]
        case GetOp(k) => AfterGet(m, k)
        case SetOp(k, v) => AfterSet(m, k, v, maxSize)
        case ClearOp => Empty();
      Run(next, ops[1..], maxSize)
  }

  /** After any sequence of operations the cache holds at most `maxSize` entries (for `maxSize >= 1`). */
  lemma {:induction false} RunBounded<K, V>(m: OrderedMap<K, V>, ops: seq<Op<K, V>>, maxSize: int)
    requires WellFormed(m) && |m.keys| <= Capacity(maxSize)
    ensures WellFormed(Run(m, ops, maxSize))
    ensures |Run(m, ops, maxSize).values| <= Capacity(maxSize)
    decreases |ops|
  {
    if ops == [] {
      DistinctCardinality(m.keys);
    } else {
      match ops[0]
      case GetOp(k) =>
        GetPreserves(m, k, maxSize);
        RunBounded(AfterGet(m, k), ops[1..], maxSize);
      case SetOp(k, v) =>
        SetPreserves(m, k, v, maxSize);
        RunBounded(AfterSet(m, k, v, maxSize), ops[1..], maxSize);
      case ClearOp =>
        RunBounded(Empty(), ops[1..], maxSize);
    }
  }

  /** With capacity 2, setting a, b, c leaves exactly b and c, a having been evicted first. */
  lemma ThreeSetsIntoTwo(a: int, b: int, c: int)
    requires a != b && b != c && a != c
    ensures Run(Empty(), [SetOp(a, 1), SetOp(b, 2), SetOp(c, 3)], 2).keys == [b, c]
    ensures Run(Empty(), [SetOp(a, 1), SetOp(b, 2), SetOp(c, 3)], 2).values == map[b := 2, c := 3]
  {
    var m1 := AfterSet(Empty(), a, 1, 2);
    var m2 := AfterSet(m1, b, 2, 2);
    assert m2.keys == [a, b];
    var m3 := AfterSet(m2, c, 3, 2);
    assert m3.keys == [b, c];
    assert m3.values == map[b := 2, c := 3];
    var ops := [SetOp(a, 1), SetOp(b, 2), SetOp(c, 3)];
    assert ops[1..] == [SetOp(b, 2), SetOp(c, 3)];
    assert ops[1..][1..] == [SetOp(c, 3)];
    assert Run(m3, [], 2) == m3;
    assert Run(m2, [SetOp(c, 3)], 2) == m3;
    assert Run(m1, [SetOp(b, 2), SetOp(c, 3)], 2) == m3;
    assert Run(Empty(), ops, 2) == m3;
  }
}
