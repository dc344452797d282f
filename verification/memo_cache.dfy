/**
 * The cache store and the call protocol that the `@Memoized` macro wires
 * into a function body: build the key, look it up, on a miss run the
 * original body, evict one arbitrary entry when the store is full, store
 * the result and return it.
 *
 * A cache is the generated dictionary `<name>_cache: [<name>_parameters: R]`;
 * its bound is the `maxCount: Int?` constant emitted into the body.
 */
module MemoCache {
  import opened Wrappers

  /** What a memoized call leaves behind: the returned value and the cache
      after the call, or a trap (the process crashes, nothing is returned). */
  datatype Outcome<K, V> = Returned(value: V, cache: map<K, V>) | Trapped

  /** The capacity invariant: a bounded cache holds at most `maxCount` entries. */
  predicate Within<K, V>(cache: map<K, V>, maxCount: Option<nat>) {
    maxCount.Some? ==> |cache| <= maxCount.value
  }

  /** Every stored entry is the value `spec` gives for its key. */
  predicate Agrees<K, V(==)>(cache: map<K, V>, spec: K -> V) {
    forall k {:trigger cache[k]} :: k in cache ==> cache[k] == spec(k)
  }

  /** `storage[args]`: the stored result for `key`, if any. */
  function Lookup<K, V>(cache: map<K, V>, key: K): (r: Option<V>)
    ensures r.Some? <==> key in cache
    ensures r.Some? ==> r.value == cache[key]
  {
    if key in cache then Some(cache[key]) else None
  }

  /** The guard of the eviction branch: a bound is set and the count equals it. */
  predicate EvictionDue<K, V>(cache: map<K, V>, maxCount: Option<nat>) {
    maxCount.Some? && |cache| == maxCount.value
  }

  /**
   * The tail of the protocol, run after the body produced `r` for `key`:
   * when the guard holds, one entry picked by `randomElement()` is removed
   * (the pick is an arbitrary existing key here; on an empty dictionary the
   * forced unwrap traps), then `key` is mapped to `r` and `r` is returned.
   */
  method Store<K, V>(cache: map<K, V>, key: K, r: V, maxCount: Option<nat>)
    returns (o: Outcome<K, V>)
    ensures o.Trapped? <==> EvictionDue(cache, maxCount) && |cache| == 0
    ensures o.Returned? ==> o.value == r && key in o.cache && o.cache[key] == r
    ensures o.Returned? ==> forall k :: k in o.cache ==> k == key || (k in cache && o.cache[k] == cache[k])
    ensures o.Returned? && !EvictionDue(cache, maxCount) ==> o.cache == cache[key := r]
    ensures o.Returned? && EvictionDue(cache, maxCount) ==>
      exists victim :: victim in cache && o.cache == (cache - {victim})[key := r]
    ensures o.Returned? && key !in cache ==>
      |o.cache| == if EvictionDue(cache, maxCount) then |cache| else |cache| + 1
    ensures o.Returned? && Within(cache, maxCount) ==> Within(o.cache, maxCount)
  {
    var kept := cache;
    if EvictionDue(cache, maxCount) {
      if |cache| == 0 {
        return Trapped;
      }
      var victim :| victim in cache;
      kept := cache - {victim};
    }
    o := Returned(r, kept[key := r]);
  }

  /**
   * One call of a memoized function whose body makes no recursive call:
   * a hit returns the stored value and leaves the cache alone, a miss
   * evaluates `body` once and stores its result. `evaluated` records
   * whether the body ran.
   */
  method Call<K, V>(cache: map<K, V>, key: K, body: K -> V, maxCount: Option<nat>)
    returns (o: Outcome<K, V>, evaluated: bool)
    ensures evaluated <==> key !in cache
    ensures key in cache ==> o == Returned(cache[key], cache)
    ensures key !in cache ==> (o.Trapped? <==> EvictionDue(cache, maxCount) && |cache| == 0)
    ensures o.Returned? ==> key in o.cache && o.cache[key] == o.value
    ensures key !in cache && o.Returned? ==> o.value == body(key)
    ensures key !in cache && !EvictionDue(cache, maxCount) ==> o == Returned(body(key), cache[key := body(key)])
    ensures o.Returned? && Agrees(cache, body) ==> Agrees(o.cache, body) && o.value == body(key)
    ensures o.Returned? && Within(cache, maxCount) ==> Within(o.cache, maxCount)
  {
    match Lookup(cache, key)
    case Some(v) =>
      return Returned(v, cache), false;
    case None =>
      var r := body(key);
      o := Store(cache, key, r, maxCount);
      evaluated := true;
  }

  /**
   * Two calls with the same arguments, the second on the cache the first
   * left behind: the body runs at most once, and both calls agree.
   */
  method CallTwice<K, V>(cache: map<K, V>, key: K, body: K -> V, maxCount: Option<nat>)
    returns (first: Outcome<K, V>, second: Outcome<K, V>, evaluations: nat)
    ensures evaluations == if key in cache then 0 else 1
    ensures first.Returned? ==> second == Returned(first.value, first.cache)
    ensures first.Trapped? ==> second.Trapped?
  {
    var evaluated: bool;
    first, evaluated := Call(cache, key, body, maxCount);
    evaluations := if evaluated then 1 else 0;
    if first.Trapped? {
      return first, Trapped, evaluations;
    }
    var again: bool;
    second, again := Call(first.cache, key, body, maxCount);
    evaluations := evaluations + if again then 1 else 0;
  }

  /** `removeAll()` on a cache dictionary. */
  function RemoveAll<K, V>(cache: map<K, V>): (r: map<K, V>)
    ensures |r| == 0
    ensures forall k :: k !in r
  {
    map[]
  }

  /**
   * Clearing and then calling: whatever was cached before, the call
   * misses and runs the body.
   */
  method ResetThenCall<K, V>(cache: map<K, V>, key: K, body: K -> V, maxCount: Option<nat>)
    returns (o: Outcome<K, V>, evaluated: bool)
    ensures evaluated
    ensures o.Returned? ==> o.value == body(key) && o.cache == map[key := body(key)]
    ensures o.Trapped? <==> maxCount == Some(0)
  {
    o, evaluated := Call(RemoveAll(cache), key, body, maxCount);
  }
}
