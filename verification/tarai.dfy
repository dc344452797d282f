/**
 * The client's memoized `tarai2(x:y:z:)` under `@Memoized(maxCount: 1000)`:
 * Takeuchi's function in the variant that returns `y` once `x <= y`. The
 * body makes four recursive calls, three for the arguments (left to right)
 * and one on their results, and each goes through the cache.
 *
 * Whether the recursion ends is not part of the model: every call carries
 * `fuel`, spent once per recursive body, and a run that exhausts it reports
 * `OutOfFuel` instead of a result. Everything proved about a finished run
 * holds for the unbounded one.
 */
module Tarai {
  import opened Wrappers
  import opened MemoCache

  /** The generated key struct `tarai2_parameters(x:y:z:)`. */
  datatype Args = Args(x: int, y: int, z: int)

  /** A run of the model: finished with an outcome, or stopped for lack of fuel. */
  datatype Run = Finished(outcome: Outcome<Args, int>) | OutOfFuel

  /** The value the recursion computes, in closed form. */
  function Tarai(a: Args): int {
    if a.x <= a.y then a.y else if a.y <= a.z then a.z else a.x
  }

  /** The closed form satisfies the defining equations of `tarai2`: the base
      case returns `y`, and otherwise the value is the function applied to
      the three recursive results. */
  lemma TaraiRecurrence(a: Args)
    ensures a.x <= a.y ==> Tarai(a) == a.y
    ensures a.x > a.y ==> Tarai(a) == Tarai(Args(
      Tarai(Args(a.x - 1, a.y, a.z)),
      Tarai(Args(a.y - 1, a.z, a.x)),
      Tarai(Args(a.z - 1, a.x, a.y))))
  {
  }

  /** Every cached value is the closed form of its key
      (`Agrees(cache, Tarai)`, spelled out for `Tarai`). */
  predicate Correct(cache: map<Args, int>) {
    forall k {:trigger cache[k], Tarai(k)} :: k in cache ==> cache[k] == Tarai(k)
  }

  /** `Correct` is the generic agreement of a cache with `Tarai`. */
  lemma CorrectIsAgrees(cache: map<Args, int>)
    ensures Correct(cache) <==> Agrees(cache, k => Tarai(k))
  {
  }

  /** The invariants a call keeps for the cache it leaves behind. */
  predicate Good(cache: map<Args, int>, maxCount: Option<nat>) {
    Correct(cache) && Within(cache, maxCount)
  }

  /** What every run promises: a finished run either traps, which only a
      `maxCount` of 0 makes happen, or returns the closed form with a
      cache that keeps the invariants. */
  predicate Sound(r: Run, a: Args, maxCount: Option<nat>) {
    r.Finished? ==>
      (r.outcome.Trapped? <==> maxCount == Some(0))
      && (r.outcome.Returned? ==> r.outcome.value == Tarai(a) && a in r.outcome.cache && Good(r.outcome.cache, maxCount))
  }

  /**
   * The generated outer `tarai2(x:y:z:)`: a hit returns the stored value
   * without touching the cache or spending fuel; a miss runs the body and
   * stores its result, evicting first when the cache is full.
   */
  method Tarai2(cache: map<Args, int>, a: Args, maxCount: Option<nat>, fuel: nat)
    returns (r: Run)
    requires Good(cache, maxCount)
    decreases fuel, 1
    ensures Sound(r, a, maxCount)
    ensures a in cache ==> r == Finished(Returned(cache[a], cache))
    ensures a.x <= a.y && maxCount != Some(0) ==> r.Finished? && r.outcome.Returned? && r.outcome.value == a.y
  {
    match Lookup(cache, a)
    case Some(v) =>
      return Finished(Returned(v, cache));
    case None =>
      var b := Body(cache, a, maxCount, fuel);
      if b.OutOfFuel? || b.outcome.Trapped? {
        return b;
      }
      var o := Store(b.outcome.cache, a, b.outcome.value, maxCount);
      r := Finished(o);
  }

  /**
   * The original body: `y` when `x <= y`, and otherwise `tarai2` on the
   * results of `tarai2(x - 1, y, z)`, `tarai2(y - 1, z, x)` and
   * `tarai2(z - 1, x, y)`, in that order, each call seeing the cache the
   * previous one left.
   */
  method Body(cache: map<Args, int>, a: Args, maxCount: Option<nat>, fuel: nat)
    returns (r: Run)
    requires Good(cache, maxCount)
    decreases fuel, 0
    ensures r.Finished? && r.outcome.Returned? ==> r.outcome.value == Tarai(a) && Good(r.outcome.cache, maxCount)
    ensures r.Finished? && r.outcome.Trapped? ==> maxCount == Some(0)
    ensures a.x <= a.y ==> r == Finished(Returned(a.y, cache))
  {
    if a.x <= a.y {
      return Finished(Returned(a.y, cache));
    }
    if fuel == 0 {
      return OutOfFuel;
    }
    var r1 := Tarai2(cache, Args(a.x - 1, a.y, a.z), maxCount, fuel - 1);
    if r1.OutOfFuel? || r1.outcome.Trapped? {
      return r1;
    }
    var r2 := Tarai2(r1.outcome.cache, Args(a.y - 1, a.z, a.x), maxCount, fuel - 1);
    if r2.OutOfFuel? || r2.outcome.Trapped? {
      return r2;
    }
    var r3 := Tarai2(r2.outcome.cache, Args(a.z - 1, a.x, a.y), maxCount, fuel - 1);
    if r3.OutOfFuel? || r3.outcome.Trapped? {
      return r3;
    }
    var outer := Args(r1.outcome.value, r2.outcome.value, r3.outcome.value);
    r := Tarai2(r3.outcome.cache, outer, maxCount, fuel - 1);
    if r.Finished? && r.outcome.Returned? {
      TaraiRecurrence(a);
    }
  }
}
