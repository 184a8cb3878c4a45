/** The byte-budgeted cache behind both decoded chunks and parsed indexes, and
    its refinement to a recency list, least recently used first. */
module LruCache {
  import opened Core
  import opened Codecs

  datatype Lru<!K, V> = Lru(entries: map<K, V>, used: int, tick: nat, lastUsed: map<K, nat>)

  function SizeAt<K, V>(entries: map<K, V>, key: K, size: V -> nat): nat {
    if key in entries then size(entries[key]) else 0
  }

  /** The bytes of the entries named by a list of keys. */
  function TotalBytes<K, V>(entries: map<K, V>, order: seq<K>, size: V -> nat): nat {
    if order == [] then 0 else SizeAt(entries, order[0], size) + TotalBytes(entries, order[1..], size)
  }

  ghost predicate SortedBy<K>(order: seq<K>, rank: map<K, nat>) {
    && (forall k :: k in order ==> k in rank)
    && forall i, j :: 0 <= i < j < |order| ==> rank[order[i]] < rank[order[j]]
  }

  ghost predicate AllBelow<K(!new)>(rank: map<K, nat>, bound: nat) {
    forall k :: k in rank ==> rank[k] < bound
  }

  /** The state realizes the recency list `order`: its keys, each once, in the
      order of their ticks, with `used` the bytes they hold. */
  ghost predicate Realizes<K(!new), V>(s: Lru<K, V>, order: seq<K>, size: V -> nat) {
    && Enumerates(order, s.entries.Keys)
    && s.lastUsed.Keys == s.entries.Keys
    && SortedBy(order, s.lastUsed) && AllBelow(s.lastUsed, s.tick)
    && s.used == TotalBytes(s.entries, order, size)
  }

  // ----- the recency list -----

  function Without<K(==)>(order: seq<K>, key: K): seq<K> {
    if order == [] then []
    else if order[0] == key then Without(order[1..], key)
    else [order[0]] + Without(order[1..], key)
  }

  function Touch<K(==)>(order: seq<K>, key: K): seq<K> {
    Without(order, key) + [key]
  }

  /** Drop the least recent keys while over budget, but keep the last one. */
  /** `key` is the most recent now; the others keep their order. */
  ghost predicate MovedLast<K>(before: seq<K>, after: seq<K>, key: K) {
    exists n :: 0 <= n < |before| && before[n] == key && after == before[..n] + before[n + 1..] + [key]
  }

  lemma TouchHead<K>(order: seq<K>, key: K)
    requires order != [] && Distinct(order)
    ensures Distinct(order[1..]) && order == [order[0]] + order[1..]
    ensures order[0] == key ==> Touch(order, key) == order[1..] + [key]
    ensures order[0] != key ==> Touch(order, key) == [order[0]] + Touch(order[1..], key)
  {
    if order[0] == key { WithoutNothing(order[1..], key); }
  }

  lemma {:induction false} TouchMovesLast<K>(order: seq<K>, key: K)
    requires key in order && Distinct(order)
    ensures MovedLast(order, Touch(order, key), key)
  {
    TouchHead(order, key);
    hide Touch, Distinct;
    var rest := order[1..];
    if order[0] == key {
      assert order[..0] + order[1..] == rest;
    } else {
      TouchMovesLast(rest, key);
      var n :| 0 <= n < |rest| && rest[n] == key && Touch(rest, key) == rest[..n] + rest[n + 1..] + [key];
      MovedBehind(order[0], rest, n, key);
    }
  }

  lemma MovedBehind<K>(first: K, rest: seq<K>, n: nat, key: K)
    requires n < |rest| && rest[n] == key
    ensures MovedLast([first] + rest, [first] + (rest[..n] + rest[n + 1..] + [key]), key)
  {
    var order := [first] + rest;
    assert order[n + 1] == key && order[..n + 1] == [first] + rest[..n] && order[n + 2..] == rest[n + 1..];
    assert [first] + (rest[..n] + rest[n + 1..] + [key]) == order[..n + 1] + order[n + 2..] + [key];
  }

  lemma {:induction false} WithoutNothing<K>(order: seq<K>, key: K)
    requires key !in order
    ensures Without(order, key) == order
  {
    if order != [] { WithoutNothing(order[1..], key); }
  }

  function Trim<K, V>(entries: map<K, V>, order: seq<K>, size: V -> nat, budget: nat): seq<K> {
    if |order| > 1 && TotalBytes(entries, order, size) > budget then Trim(entries, order[1..], size, budget)
    else order
  }

  /** What is kept is a suffix that fits (or the newest key alone), and every
      longer suffix would not fit. */
  lemma {:induction false} TrimIsLongestFit<K, V>(entries: map<K, V>, order: seq<K>, size: V -> nat, budget: nat)
    requires order != []
    ensures var kept := Trim(entries, order, size, budget);
      && 0 < |kept| <= |order| && kept == order[|order| - |kept|..]
      && (TotalBytes(entries, kept, size) <= budget || |kept| == 1)
      && (forall n :: 0 <= n < |order| - |kept| ==> TotalBytes(entries, order[n..], size) > budget)
  {
    assert order[0..] == order;
    if |order| > 1 && TotalBytes(entries, order, size) > budget {
      TrimIsLongestFit(entries, order[1..], size, budget);
      var kept := Trim(entries, order, size, budget);
      assert order[1..][|order| - 1 - |kept|..] == order[|order| - |kept|..];
      forall n | 0 <= n < |order| - |kept| ensures TotalBytes(entries, order[n..], size) > budget {
        if n > 0 { assert order[1..][n - 1..] == order[n..]; }
      }
    }
  }

  lemma {:induction false} WithoutKeeps<K>(order: seq<K>, key: K)
    ensures forall k :: k in Without(order, key) <==> k in order && k != key
  {
    if order != [] { WithoutKeeps(order[1..], key); }
  }

  lemma {:induction false} WithoutSorted<K>(order: seq<K>, key: K, rank: map<K, nat>)
    requires SortedBy(order, rank)
    ensures SortedBy(Without(order, key), rank)
  {
    if order != [] {
      SortedRest(order, rank);
      WithoutKeeps(order[1..], key);
      WithoutHead(order, key);
      hide Without, SortedBy;
      WithoutSorted(order[1..], key, rank);
      if order[0] != key {
        SortedAfter(order, Without(order[1..], key), rank);
      }
    }
  }

  lemma WithoutHead<K>(order: seq<K>, key: K)
    requires order != []
    ensures Without(order, key)
      == if order[0] == key then Without(order[1..], key) else [order[0]] + Without(order[1..], key)
  {
  }

  lemma SortedRest<K>(order: seq<K>, rank: map<K, nat>)
    requires SortedBy(order, rank) && order != []
    ensures SortedBy(order[1..], rank)
  {
  }

  lemma SortedAfter<K>(order: seq<K>, w: seq<K>, rank: map<K, nat>)
    requires SortedBy(order, rank) && order != []
    requires SortedBy(w, rank) && forall k :: k in w ==> k in order[1..]
    ensures SortedBy([order[0]] + w, rank)
  {
    forall j | 0 <= j < |w| ensures rank[order[0]] < rank[w[j]] {
      assert w[j] in order[1..];
      var i :| 0 <= i < |order[1..]| && order[1..][i] == w[j];
      assert order[i + 1] == w[j];
    }
  }

  lemma SortedIsDistinct<K>(order: seq<K>, rank: map<K, nat>)
    requires SortedBy(order, rank)
    ensures Distinct(order)
  {
  }

  lemma {:induction false} SizeWithout<K, V>(entries: map<K, V>, order: seq<K>, size: V -> nat, key: K)
    requires Distinct(order)
    ensures TotalBytes(entries, order, size)
      == TotalBytes(entries, Without(order, key), size) + if key in order then SizeAt(entries, key, size) else 0
  {
    if order != [] {
      SizeWithout(entries, order[1..], size, key);
      assert order[0] == key ==> key !in order[1..];
    }
  }

  lemma {:induction false} SizeSnoc<K, V>(entries: map<K, V>, order: seq<K>, size: V -> nat, key: K)
    ensures TotalBytes(entries, order + [key], size) == TotalBytes(entries, order, size) + SizeAt(entries, key, size)
  {
    if order == [] {
      assert order + [key] == [key];
    } else {
      assert (order + [key])[1..] == order[1..] + [key];
      SizeSnoc(entries, order[1..], size, key);
    }
  }

  lemma {:induction false} SizeSame<K, V>(before: map<K, V>, after: map<K, V>, order: seq<K>, size: V -> nat)
    requires forall k :: k in order ==> k in before && k in after && before[k] == after[k]
    ensures TotalBytes(before, order, size) == TotalBytes(after, order, size)
  {
    if order != [] { SizeSame(before, after, order[1..], size); }
  }

  // ----- the operations on the state -----

  /** A lookup that finds its key gives it the newest tick. */
  function Hit<K, V>(s: Lru<K, V>, key: K): Lru<K, V> {
    s.(tick := s.tick + 1, lastUsed := s.lastUsed[key := s.tick])
  }

  function Add<K, V>(s: Lru<K, V>, key: K, value: V, size: V -> nat): Lru<K, V> {
    Lru(s.entries[key := value], s.used + size(value), s.tick + 1, s.lastUsed[key := s.tick])
  }

  function Remove<K, V>(s: Lru<K, V>, key: K, size: V -> nat): Lru<K, V> {
    Lru(s.entries - {key}, s.used - SizeAt(s.entries, key, size), s.tick, s.lastUsed - {key})
  }

  /** A key with the smallest tick. */
  ghost predicate IsOldest<K(!new), V>(s: Lru<K, V>, key: K) {
    key in s.lastUsed && forall k :: k in s.lastUsed ==> s.lastUsed[key] <= s.lastUsed[k]
  }

  lemma TouchSorted<K(!new)>(order: seq<K>, rank: map<K, nat>, key: K, tick: nat)
    requires SortedBy(order, rank) && AllBelow(rank, tick)
    ensures SortedBy(Touch(order, key), rank[key := tick]) && AllBelow(rank[key := tick], tick + 1)
  {
    WithoutSorted(order, key, rank);
    WithoutKeeps(order, key);
    hide Without;
    var w := Without(order, key);
    forall i | 0 <= i < |w| ensures w[i] in rank && w[i] != key {
      assert w[i] in w;
    }
  }

  lemma HitTouches<K(!new), V>(s: Lru<K, V>, order: seq<K>, size: V -> nat, key: K)
    requires Realizes(s, order, size) && key in s.entries
    ensures Realizes(Hit(s, key), Touch(order, key), size)
  {
    TouchSorted(order, s.lastUsed, key, s.tick);
    SortedIsDistinct(Touch(order, key), s.lastUsed[key := s.tick]);
    WithoutKeeps(order, key);
    SizeWithout(s.entries, order, size, key);
    SizeSnoc(s.entries, Without(order, key), size, key);
    hide Without, TotalBytes, SortedBy, AllBelow;
  }

  lemma HitMoves<K(!new), V>(s: Lru<K, V>, order: seq<K>, size: V -> nat, key: K)
    requires Realizes(s, order, size) && key in s.entries
    ensures Realizes(Hit(s, key), Touch(order, key), size) && MovedLast(order, Touch(order, key), key)
  {
    HitTouches(s, order, size, key);
    hide TotalBytes, SortedBy, AllBelow, Touch;
    TouchMovesLast(order, key);
  }

  lemma AddAppends<K(!new), V>(s: Lru<K, V>, order: seq<K>, size: V -> nat, key: K, value: V)
    requires Realizes(s, order, size) && key !in s.entries
    ensures Realizes(Add(s, key, value, size), order + [key], size)
  {
    var after := Add(s, key, value, size);
    assert SortedBy(order + [key], after.lastUsed);
    SortedIsDistinct(order + [key], after.lastUsed);
    SizeSame(s.entries, after.entries, order, size);
    SizeSnoc(after.entries, order, size, key);
    hide TotalBytes, SortedBy;
  }

  lemma OldestIsFirst<K(!new), V>(s: Lru<K, V>, order: seq<K>, size: V -> nat, key: K)
    requires Realizes(s, order, size) && IsOldest(s, key)
    ensures order != [] && key == order[0]
  {
    assert key in order;
    var i :| 0 <= i < |order| && order[i] == key;
    assert order[0] in s.lastUsed;
  }

  lemma DropFirst<K(!new)>(order: seq<K>, keys: set<K>)
    requires order != [] && Enumerates(order, keys)
    ensures Enumerates(order[1..], keys - {order[0]})
  {
    assert order == [order[0]] + order[1..];
    var rest := order[1..];
    assert forall i :: 0 <= i < |rest| ==> rest[i] == order[i + 1];
  }

  lemma DropSorted<K(!new)>(order: seq<K>, rank: map<K, nat>)
    requires order != [] && SortedBy(order, rank)
    ensures SortedBy(order[1..], rank - {order[0]})
  {
    var rest, after := order[1..], rank - {order[0]};
    forall k | k in rest ensures k in after && after[k] == rank[k] {
      var i :| 0 <= i < |rest| && rest[i] == k;
      assert rest[i] == order[i + 1] && rank[order[0]] < rank[order[i + 1]];
    }
    forall i, j | 0 <= i < j < |rest| ensures after[rest[i]] < after[rest[j]] {
      assert rest[i] == order[i + 1] && rest[j] == order[j + 1];
    }
  }

  lemma SizeHead<K, V>(entries: map<K, V>, order: seq<K>, size: V -> nat)
    requires order != []
    ensures TotalBytes(entries, order, size) == SizeAt(entries, order[0], size) + TotalBytes(entries, order[1..], size)
  {
  }

  lemma RemoveCounts<K(!new), V>(s: Lru<K, V>, order: seq<K>, size: V -> nat)
    requires Realizes(s, order, size) && order != []
    ensures var after := Remove(s, order[0], size); after.used == TotalBytes(after.entries, order[1..], size)
  {
    DropFirst(order, s.entries.Keys);
    SizeHead(s.entries, order, size);
    hide SortedBy, TotalBytes;
    var after := Remove(s, order[0], size);
    SizeSame(s.entries, after.entries, order[1..], size);
  }

  lemma RemoveDropsFirst<K(!new), V>(s: Lru<K, V>, order: seq<K>, size: V -> nat)
    requires Realizes(s, order, size) && order != []
    ensures Realizes(Remove(s, order[0], size), order[1..], size)
  {
    RemoveCounts(s, order, size);
    DropFirst(order, s.entries.Keys);
    DropSorted(order, s.lastUsed);
    hide SortedBy, TotalBytes, Enumerates;
    var after := Remove(s, order[0], size);
    assert after.entries.Keys == s.entries.Keys - {order[0]};
    assert after.lastUsed.Keys == s.lastUsed.Keys - {order[0]};
  }

  lemma SomeOldest<K(!new), V>(s: Lru<K, V>, order: seq<K>, size: V -> nat)
    requires Realizes(s, order, size) && order != []
    ensures IsOldest(s, order[0])
  {
    assert order[0] in order;
    forall k | k in s.lastUsed ensures s.lastUsed[order[0]] <= s.lastUsed[k] {
      assert k in order;
    }
  }

  lemma SizeOfOrder<K(!new), V>(s: Lru<K, V>, order: seq<K>, size: V -> nat)
    requires Realizes(s, order, size)
    ensures |s.entries| == |order|
  {
    DistinctCount(order, s.entries.Keys);
    assert |s.entries| == |s.entries.Keys|;
  }

  lemma {:induction false} DistinctCount<K(!new)>(order: seq<K>, keys: set<K>)
    requires Enumerates(order, keys)
    ensures |keys| == |order|
  {
    if order == [] {
      assert keys == {};
    } else {
      DropFirst(order, keys);
      DistinctCount(order[1..], keys - {order[0]});
    }
  }

  /** One turn of the eviction loop. */
  lemma EvictOne<K(!new), V>(s: Lru<K, V>, order: seq<K>, size: V -> nat, key: K, budget: nat, all: map<K, V>)
    requires Realizes(s, order, size) && IsOldest(s, key)
    requires s.used > budget && |s.entries| > 1
    requires Agree(s.entries, all)
    ensures |order| > 1 && key in s.entries && s.used >= SizeAt(s.entries, key, size)
    ensures Realizes(Remove(s, key, size), order[1..], size)
    ensures Agree(Remove(s, key, size).entries, all)
    ensures Trim(all, order[1..], size, budget) == Trim(all, order, size, budget)
  {
    OldestIsFirst(s, order, size, key);
    RemoveDropsFirst(s, order, size);
    SizeOfOrder(s, order, size);
    SizeSame(s.entries, all, order, size);
  }

  /** When the loop stops there is nothing to trim. */
  lemma NothingToEvict<K(!new), V>(s: Lru<K, V>, order: seq<K>, size: V -> nat, budget: nat, all: map<K, V>)
    requires Realizes(s, order, size) && order != [] && Agree(s.entries, all)
    requires s.used <= budget || |s.entries| <= 1
    ensures Trim(all, order, size, budget) == order
    ensures order[|order| - 1] in s.entries
  {
    SizeOfOrder(s, order, size);
    SizeSame(s.entries, all, order, size);
    assert order[|order| - 1] in order;
  }

  lemma AnOldest<K(!new), V>(s: Lru<K, V>, order: seq<K>, size: V -> nat)
    requires Realizes(s, order, size) && order != []
    ensures exists k :: k in s.lastUsed && forall j :: j in s.lastUsed ==> s.lastUsed[k] <= s.lastUsed[j]
  {
    SomeOldest(s, order, size);
  }

  ghost predicate Agree<K(!new), V>(part: map<K, V>, whole: map<K, V>) {
    forall k :: k in part ==> k in whole && part[k] == whole[k]
  }

  /** The whole eviction loop as a function of the state. */
  ghost function EvictAll<K(!new), V>(s: Lru<K, V>, size: V -> nat, budget: nat): Lru<K, V>
    decreases |s.entries|
  {
    if s.used > budget && |s.entries| > 1 && exists k :: k in s.entries && IsOldest(s, k) then
      var k :| k in s.entries && IsOldest(s, k);
      SmallerWithout(s.entries, k);
      EvictAll(Remove(s, k, size), size, budget)
    else s
  }

  lemma SmallerWithout<K, V>(m: map<K, V>, key: K)
    requires key in m
    ensures |m - {key}| < |m|
  {
    assert (m - {key}).Keys == m.Keys - {key};
    assert |(m - {key}).Keys| == |m - {key}| && |m.Keys| == |m|;
  }

  /** The critical section after a load, as a function of the state. */
  ghost function Insert<K(!new), V>(s: Lru<K, V>, key: K, value: V, size: V -> nat, budget: nat): Lru<K, V> {
    if key in s.entries then Hit(s, key) else EvictAll(Add(s, key, value, size), size, budget)
  }

  lemma NoEviction<K(!new), V>(s: Lru<K, V>, size: V -> nat, budget: nat)
    requires s.used <= budget || |s.entries| <= 1
    ensures EvictAll(s, size, budget) == s
  {
  }

  lemma EvictAllStep<K(!new), V>(s: Lru<K, V>, order: seq<K>, size: V -> nat, key: K, budget: nat)
    requires Realizes(s, order, size) && IsOldest(s, key)
    requires s.used > budget && |s.entries| > 1
    ensures EvictAll(s, size, budget) == EvictAll(Remove(s, key, size), size, budget)
  {
    OldestIsFirst(s, order, size, key);
    assert order[0] in order;
    forall k | k in s.entries && IsOldest(s, k) ensures k == key {
      OldestIsFirst(s, order, size, k);
    }
  }

  /** Eviction realizes the trimmed recency list and invents no entry. */
  lemma {:induction false} EvictAllTrims<K(!new), V>(s: Lru<K, V>, order: seq<K>, size: V -> nat, budget: nat)
    requires Realizes(s, order, size) && order != []
    ensures Realizes(EvictAll(s, size, budget), Trim(s.entries, order, size, budget), size)
    ensures Agree(EvictAll(s, size, budget).entries, s.entries)
    decreases |order|
  {
    if s.used > budget && |s.entries| > 1 {
      SomeOldest(s, order, size);
      var next := Remove(s, order[0], size);
      EvictAllStep(s, order, size, order[0], budget);
      EvictOne(s, order, size, order[0], budget, s.entries);
      EvictAllTrims(next, order[1..], size, budget);
      TrimSame(next.entries, s.entries, order[1..], size, budget);
    } else {
      NothingToEvict(s, order, size, budget, s.entries);
    }
  }

  lemma {:induction false} TrimSame<K(!new), V>(
      part: map<K, V>, whole: map<K, V>, order: seq<K>, size: V -> nat, budget: nat)
    requires Agree(part, whole) && forall k :: k in order ==> k in part
    ensures Trim(part, order, size, budget) == Trim(whole, order, size, budget)
  {
    SizeSame(part, whole, order, size);
    if |order| > 1 { TrimSame(part, whole, order[1..], size, budget); }
  }

  // ----- the cache object -----

  /** `size` is the heap-bytes estimate, `load` the parse or decode that a miss
      runs, and `file` the content behind each key, which never changes. */
  class Cache<K(==, !new), F(!new), V(!new), E> {
    const budget: nat
    const size: V -> nat
    const load: F -> Result<V, E>
    ghost const file: K -> F
    var entries: map<K, V>
    var used: nat
    var tick: nat
    var lastUsed: map<K, nat>
    ghost var order: seq<K>
    ghost var loads: seq<K>

    ghost function State(): Lru<K, V>
      reads this
    {
      Lru(entries, used, tick, lastUsed)
    }

    /** The fields realize a recency list and hold only what `load` gives. */
    ghost predicate Valid()
      reads this
    {
      && Realizes(State(), order, size)
      && Loaded(entries)
    }

    /** Every entry is what loading its key's file gives. */
    ghost predicate Loaded(part: map<K, V>) {
      forall k :: k in part ==> load(file(k)) == Ok(part[k])
    }

    constructor (budget: nat, size: V -> nat, load: F -> Result<V, E>, ghost file: K -> F)
      ensures Valid() && order == [] && loads == []
      ensures this.budget == budget && this.size == size && this.load == load && this.file == file
    {
      this.budget, this.size, this.load, this.file := budget, size, load, file;
      entries, used, tick, lastUsed, order, loads := map[], 0, 0, map[], [], [];
    }

    /** The fast path, under the lock. */
    method Lookup(key: K) returns (r: Option<V>)
      requires Valid()
      modifies this
      ensures Valid() && entries == old(entries) && used == old(used) && loads == old(loads)
      ensures r == if key in old(entries) then Some(old(entries)[key]) else None
      ensures order == if r.Some? then Touch(old(order), key) else old(order)
      ensures r.Some? ==> MovedLast(old(order), order, key)
      ensures State() == if r.Some? then Hit(old(State()), key) else old(State())
    {
      if key !in entries {
        return None;
      }
      HitMoves(State(), order, size, key);
      hide Realizes, MovedLast, Touch;
      lastUsed := lastUsed[key := tick];
      tick := tick + 1;
      order := Touch(order, key);
      return Some(entries[key]);
    }

    /** The slow path after loading: another caller may have been faster. The
        resident keys become the longest recent suffix that fits the budget. */
    method InsertOrHit(key: K, value: V) returns (r: V)
      requires Valid() && load(file(key)) == Ok(value)
      modifies this
      ensures Valid() && r == value && key in entries && loads == old(loads)
      ensures State() == Insert(old(State()), key, value, size, budget)
      ensures key in old(entries) ==> entries == old(entries) && order == Touch(old(order), key)
      ensures key !in old(entries) ==>
        order == Trim(old(entries)[key := value], old(order) + [key], size, budget)
        && Agree(entries, old(entries)[key := value])
    {
      var found := Lookup(key);
      hide Realizes, Trim, EvictAll, Touch;
      if found.Some? {
        return found.value;
      }
      InsertMissing(key, value);
      r := value;
    }

    method InsertMissing(key: K, value: V)
      requires Valid() && load(file(key)) == Ok(value) && key !in entries
      modifies this
      ensures Valid() && key in entries && loads == old(loads)
      ensures State() == EvictAll(Add(old(State()), key, value, size), size, budget)
      ensures order == Trim(old(entries)[key := value], old(order) + [key], size, budget)
      ensures Agree(entries, old(entries)[key := value])
    {
      hide Realizes, Trim, EvictAll;
      assert Loaded(entries[key := value]);
      AddAppends(State(), order, size, key, value);
      lastUsed := lastUsed[key := tick];
      tick := tick + 1;
      entries := entries[key := value];
      used := used + size(value);
      order := order + [key];
      EvictToBudget(key);
    }

    /** The eviction loop: smallest tick first, never the newest key. */
    method EvictToBudget(ghost newest: K)
      requires Realizes(State(), order, size) && order != [] && order[|order| - 1] == newest
      modifies this
      ensures Realizes(State(), order, size) && newest in entries && Agree(entries, old(entries))
      ensures loads == old(loads)
      ensures order == Trim(old(entries), old(order), size, budget)
      ensures State() == EvictAll(old(State()), size, budget)
    {
      hide Realizes, Trim, EvictAll;
      ghost var all, start := entries, order;
      while used > budget && |entries| > 1
        invariant Realizes(State(), order, size) && Agree(entries, all)
        invariant order != [] && order[|order| - 1] == newest && loads == old(loads)
        invariant Trim(all, order, size, budget) == Trim(all, start, size, budget)
        invariant EvictAll(State(), size, budget) == EvictAll(old(State()), size, budget)
        decreases |order|
      {
        AnOldest(State(), order, size);
        var oldest :| oldest in lastUsed && forall k :: k in lastUsed ==> lastUsed[oldest] <= lastUsed[k];
        EvictOne(State(), order, size, oldest, budget, all);
        EvictAllStep(State(), order, size, oldest, budget);
        assert Remove(State(), oldest, size)
          == Lru(entries - {oldest}, used - size(entries[oldest]), tick, lastUsed - {oldest});
        used := used - size(entries[oldest]);
        entries := entries - {oldest};
        lastUsed := lastUsed - {oldest};
        order := order[1..];
      }
      NothingToEvict(State(), order, size, budget, all);
      NoEviction(State(), size, budget);
    }

    /** `get_or_decode` / `get_or_parse`: whatever is cached, the caller gets
        what loading its key's file gives. Only a miss loads. A hit moves its key
        to the recent end; a loaded value is added and the longest recent suffix
        that fits is kept; a failed load changes nothing. */
    method GetOrLoad(key: K, content: F) returns (r: Result<V, E>)
      requires Valid() && content == file(key)
      modifies this
      ensures Valid() && r == load(content)
      ensures r.Ok? ==> key in entries
      ensures entries.Keys <= old(entries).Keys + {key}
      ensures loads == if key in old(entries) then old(loads) else old(loads) + [key]
      ensures key in old(entries) ==>
        entries == old(entries) && order == Touch(old(order), key) && MovedLast(old(order), order, key)
      ensures key !in old(entries) && r.Err? ==> entries == old(entries) && order == old(order)
      ensures key !in old(entries) && r.Ok? ==>
        order == Trim(old(entries)[key := r.value], old(order) + [key], size, budget)
        && Agree(entries, old(entries)[key := r.value])
    {
      hide Realizes, Trim, EvictAll, Touch, Agree, Insert, Hit;
      var found := Lookup(key);
      if found.Some? {
        return Ok(found.value);
      }
      loads := loads + [key];
      var loaded := load(content);
      if loaded.Err? {
        return loaded;
      }
      var value := InsertOrHit(key, loaded.value);
      AgreeKeys(entries, old(entries)[key := value]);
      return Ok(value);
    }
  }

  lemma AgreeKeys<K(!new), V>(part: map<K, V>, whole: map<K, V>)
    requires Agree(part, whole)
    ensures part.Keys <= whole.Keys
  {
  }

  /** The loads since `before` were all for these keys. */
  ghost predicate LoadsOnly<K>(before: seq<K>, after: seq<K>, keys: set<K>) {
    before <= after && forall i :: |before| <= i < |after| ==> after[i] in keys
  }
}
