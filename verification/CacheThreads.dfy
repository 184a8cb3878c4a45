/** Any number of threads calling the cache at once. The two critical sections
    are atomic; loading happens between them, outside the lock. */
module CacheThreads {
  import opened Core
  import opened LruCache

  datatype Pc<K, V> = Idle | Missed(key: K) | Loaded(key: K, value: V)

  datatype Return<K, V, E> = Return(key: K, result: Result<V, E>)

  datatype System<!K, V, E> = System(
    cache: Lru<K, V>, pcs: map<nat, Pc<K, V>>, answers: seq<Return<K, V, E>>)

  datatype Setup<!K, !F, !V, !E> = Setup(
    size: V -> nat, budget: nat, load: F -> Result<V, E>, file: K -> F)

  /** Which thread moves next, and the key it asks for if it starts a call. */
  datatype Move<K> = Move(thread: nat, key: K)

  function PcOf<K, V, E>(sys: System<K, V, E>, thread: nat): Pc<K, V> {
    if thread in sys.pcs then sys.pcs[thread] else Idle
  }

  function Finish<K, V, E>(sys: System<K, V, E>, thread: nat, key: K, result: Result<V, E>): System<K, V, E> {
    sys.(pcs := sys.pcs[thread := Idle], answers := sys.answers + [Return(key, result)])
  }

  /** One atomic step of one thread. */
  ghost function Moved<K(!new), F, V, E>(g: Setup<K, F, V, E>, sys: System<K, V, E>, m: Move<K>): System<K, V, E> {
    match PcOf(sys, m.thread)
    case Idle =>
      if m.key in sys.cache.entries then
        Finish(sys.(cache := Hit(sys.cache, m.key)), m.thread, m.key, Ok(sys.cache.entries[m.key]))
      else sys.(pcs := sys.pcs[m.thread := Missed(m.key)])
    case Missed(key) =>
      (match g.load(g.file(key))
       case Err(e) => Finish(sys, m.thread, key, Err(e))
       case Ok(value) => sys.(pcs := sys.pcs[m.thread := Loaded(key, value)]))
    case Loaded(key, value) =>
      var result := if key in sys.cache.entries then sys.cache.entries[key] else value;
      Finish(sys.(cache := Insert(sys.cache, key, value, g.size, g.budget)), m.thread, key, Ok(result))
  }

  ghost function RunThreads<K(!new), F, V, E>(g: Setup<K, F, V, E>, moves: seq<Move<K>>): System<K, V, E> {
    if moves == [] then System(Lru(map[], 0, 0, map[]), map[], [])
    else Moved(g, RunThreads(g, moves[..|moves| - 1]), moves[|moves| - 1])
  }

  // ----- the invariant -----

  ghost predicate Honest<K(!new), F, V, E>(g: Setup<K, F, V, E>, entries: map<K, V>) {
    forall k :: k in entries ==> g.load(g.file(k)) == Ok(entries[k])
  }

  ghost predicate HonestPcs<K, F, V, E>(g: Setup<K, F, V, E>, pcs: map<nat, Pc<K, V>>) {
    forall t :: t in pcs && pcs[t].Loaded? ==> g.load(g.file(pcs[t].key)) == Ok(pcs[t].value)
  }

  ghost predicate HonestReturns<K, F, V, E>(g: Setup<K, F, V, E>, answers: seq<Return<K, V, E>>) {
    forall i :: 0 <= i < |answers| ==> answers[i].result == g.load(g.file(answers[i].key))
  }

  ghost predicate Good<K(!new), F, V, E>(g: Setup<K, F, V, E>, sys: System<K, V, E>, order: seq<K>) {
    && Realizes(sys.cache, order, g.size)
    && Honest(g, sys.cache.entries) && HonestPcs(g, sys.pcs) && HonestReturns(g, sys.answers)
  }

  lemma InsertKeepsHonest<K(!new), F, V, E>(
      g: Setup<K, F, V, E>, s: Lru<K, V>, order: seq<K>, key: K, value: V) returns (order': seq<K>)
    requires Realizes(s, order, g.size) && Honest(g, s.entries) && g.load(g.file(key)) == Ok(value)
    ensures Realizes(Insert(s, key, value, g.size, g.budget), order', g.size)
    ensures Honest(g, Insert(s, key, value, g.size, g.budget).entries)
  {
    if key in s.entries {
      HitTouches(s, order, g.size, key);
      order' := Touch(order, key);
    } else {
      var added := Add(s, key, value, g.size);
      AddAppends(s, order, g.size, key, value);
      EvictAllTrims(added, order + [key], g.size, g.budget);
      assert Honest(g, added.entries);
      order' := Trim(added.entries, order + [key], g.size, g.budget);
    }
  }

  lemma StepKeepsGood<K(!new), F, V, E>(g: Setup<K, F, V, E>, sys: System<K, V, E>, order: seq<K>, m: Move<K>)
    returns (order': seq<K>)
    requires Good(g, sys, order)
    ensures Good(g, Moved(g, sys, m), order')
  {
    hide Realizes, EvictAll;
    order' := order;
    match PcOf(sys, m.thread)
    case Idle =>
      if m.key in sys.cache.entries {
        HitTouches(sys.cache, order, g.size, m.key);
        order' := Touch(order, m.key);
      }
    case Missed(key) =>
    case Loaded(key, value) =>
      order' := InsertKeepsHonest(g, sys.cache, order, key, value);
  }

  /** Under every interleaving every call returns what loading its key's file
      gives, and the cache stays a recency list with exact byte accounting. */
  lemma {:induction false} CacheIsTransparent<K(!new), F, V, E>(g: Setup<K, F, V, E>, moves: seq<Move<K>>)
    returns (order: seq<K>)
    ensures HonestReturns(g, RunThreads(g, moves).answers)
    ensures Realizes(RunThreads(g, moves).cache, order, g.size)
    ensures Good(g, RunThreads(g, moves), order)
  {
    if moves == [] {
      order := [];
    } else {
      var before := CacheIsTransparent(g, moves[..|moves| - 1]);
      order := StepKeepsGood(g, RunThreads(g, moves[..|moves| - 1]), before, moves[|moves| - 1]);
    }
  }
}
