/**
 * The client's memoized Fibonacci: `Fib.fibonacci` (an instance method) and
 * `Fib2.fibonacci` (a static method) have the same body, differing only in
 * where their cache lives (see module Client). Both run under
 * `@Memoized(maxCount: 150)`.
 */
module Fibonacci {
  import opened Wrappers
  import opened MemoCache

  /** The computed properties `one` and `two` the body uses. */
  const One: int := 1
  const Two: int := 2

  /** The plain, unmemoized recursive definition the body spells out. */
  function Fib(n: int): int
    decreases n
  {
    if n <= One then n else Fib(n - One) + Fib(n - Two)
  }

  /** The arguments a call on `n` passes through the cache, itself included,
      following the call tree: `{n}` for `n <= 1`, otherwise `n` and
      everything its two sub-calls visit. */
  function Visited(n: int): set<int>
    decreases n
  {
    if n <= One then {n} else {n} + Visited(n - One) + Visited(n - Two)
  }

  /** The same set in closed form: `n` itself, and from 2 upwards every
      argument from 0 below it. */
  predicate Reach(n: int, k: int) {
    k == n || (n > One && 0 <= k < n)
  }

  /** The integers 0 through n. */
  function Upto(n: int): set<int>
    decreases n
  {
    if n < 0 then {} else Upto(n - 1) + {n}
  }

  /** Every cached value is the Fibonacci number of its argument
      (`Agrees(cache, Fib)`, spelled out for `Fib`). */
  predicate Correct(cache: map<int, int>) {
    forall k {:trigger cache[k], Fib(k)} :: k in cache ==> cache[k] == Fib(k)
  }

  /** `Correct` is the generic agreement of a cache with `Fib`. */
  lemma CorrectIsAgrees(cache: map<int, int>)
    ensures Correct(cache) <==> Agrees(cache, k => Fib(k))
  {
  }

  /** The cache holds, with each argument, every argument a call on it
      reaches. */
  ghost predicate Closed(cache: map<int, int>) {
    forall k, j {:trigger Reach(k, j), k in cache} :: k in cache && Reach(k, j) ==> j in cache
  }

  /** `room` holds the cached keys and every argument a call on `n` can
      add, and fits under the bound: the eviction guard cannot fire during
      that call. */
  ghost predicate Fits(cache: map<int, int>, n: int, room: set<int>, maxCount: Option<nat>) {
    && cache.Keys <= room
    && (forall k {:trigger Reach(n, k)} :: Reach(n, k) ==> k in room)
    && (maxCount.Some? ==> |room| <= maxCount.value)
  }

  /** A call on `n` adds to `before` only arguments it reaches ... */
  ghost predicate Adds(before: map<int, int>, after: map<int, int>, n: int) {
    forall k {:trigger k in after} :: k in after ==> k in before || Reach(n, k)
  }

  /** ... and its body only arguments below `n`. */
  ghost predicate AddsBelow(before: map<int, int>, after: map<int, int>, n: int) {
    forall k {:trigger k in after} :: k in after ==> k in before || (Reach(n, k) && k != n)
  }

  // ---------------------------------------------------------------- sets

  /** The call tree's arguments are exactly the closed form. */
  lemma {:induction false} VisitedIsReach(n: int)
    ensures forall k :: k in Visited(n) <==> Reach(n, k)
    decreases n
  {
    if n > One {
      VisitedIsReach(n - One);
      VisitedIsReach(n - Two);
    }
  }

  /** Below `n`, a call reaches exactly what its two sub-calls reach. */
  lemma ReachSplit(n: int)
    requires n > One
    ensures forall k {:trigger Reach(n, k)} :: Reach(n, k) && k != n <==> Reach(n - One, k) || Reach(n - Two, k)
  {
  }

  lemma {:induction false} UptoMembers(n: int)
    ensures forall k :: k in Upto(n) <==> 0 <= k <= n
    decreases n
  {
    if n >= 0 {
      UptoMembers(n - 1);
    }
  }

  lemma {:induction false} UptoSize(n: int)
    requires n >= -1
    ensures |Upto(n)| == n + 1
    decreases n
  {
    if n >= 0 {
      UptoSize(n - 1);
      UptoMembers(n - 1);
    }
  }

  /** A set strictly inside another is smaller. */
  lemma ProperSubsetSmaller(a: set<int>, b: set<int>, x: int)
    requires a <= b && x in b && x !in a
    ensures |a| < |b|
  {
    assert b == a + (b - a);
    assert x in b - a;
  }

  /** Room for a call on `n` is room for its first sub-call on `n - 1`, ... */
  lemma FitsFirstCall(cache: map<int, int>, n: int, room: set<int>, maxCount: Option<nat>)
    requires n > One && Fits(cache, n, room, maxCount)
    ensures Fits(cache, n - One, room, maxCount)
  {
    forall k | Reach(n - One, k)
      ensures k in room
    {
      assert Reach(n, k);
    }
  }

  /** ... and, whatever that call added inside the room, for the second
      sub-call on `n - 2`. */
  lemma FitsSecondCall(cache: map<int, int>, after: map<int, int>, n: int, room: set<int>, maxCount: Option<nat>)
    requires n > One && Fits(cache, n, room, maxCount)
    requires after.Keys <= room
    ensures Fits(after, n - Two, room, maxCount)
  {
    forall k | Reach(n - Two, k)
      ensures k in room
    {
      assert Reach(n, k);
    }
  }

  /** Storing `n` once both its sub-arguments are cached keeps a cache closed. */
  lemma ClosedStore(cache: map<int, int>, n: int, v: int)
    requires Closed(cache)
    requires n > One ==> n - One in cache && n - Two in cache
    ensures Closed(cache[n := v])
  {
    var m := cache[n := v];
    forall k, j | k in m && Reach(k, j)
      ensures j in m
    {
      if k == n && j != n {
        ReachSplit(n);
        assert Reach(n - One, j) || Reach(n - Two, j);
      }
    }
  }

  /** What the two sub-calls add lies below `n`, within the call tree of `n`. */
  lemma ReachBothCalls(cache: map<int, int>, mid: map<int, int>, after: map<int, int>, n: int)
    requires n > One
    requires Adds(cache, mid, n - One) && Adds(mid, after, n - Two)
    ensures AddsBelow(cache, after, n)
  {
    forall k | k in after && k !in cache
      ensures Reach(n, k) && k != n
    {
      if k in mid {
        assert Reach(n - One, k);
      } else {
        assert Reach(n - Two, k);
      }
    }
  }

  /** Storing `n` after a body that added only arguments below `n` adds
      only arguments a call on `n` reaches. */
  lemma AddsThenStore(cache: map<int, int>, mid: map<int, int>, after: map<int, int>, n: int)
    requires AddsBelow(cache, mid, n)
    requires forall k {:trigger k in after} :: k in after ==> k == n || k in mid
    ensures Adds(cache, after, n)
  {
  }

  // ----------------------------------------------------- the memoized method

  /**
   * The generated outer `fibonacci(n)`: look `n` up and return the stored
   * value on a hit; otherwise take the miss path. `evals` counts body
   * evaluations over the whole call tree. `room` is any set of arguments
   * the caller budgets for; when it fits, no entry is ever evicted.
   */
  method Fibonacci(cache: map<int, int>, n: int, maxCount: Option<nat>, ghost room: set<int>)
    returns (o: Outcome<int, int>, evals: nat)
    requires Correct(cache)
    requires Within(cache, maxCount)
    decreases n, 3
    ensures o.Trapped? <==> maxCount == Some(0)
    ensures n in cache ==> o == Returned(cache[n], cache) && evals == 0
    ensures o.Returned? ==> o.value == Fib(n) && n in o.cache
    ensures o.Returned? ==> Correct(o.cache) && Within(o.cache, maxCount)
    ensures o.Returned? ==> Adds(cache, o.cache, n)
    ensures Fits(cache, n, room, maxCount) ==>
      o.Returned? && |o.cache| == |cache| + evals
      && cache.Keys <= o.cache.Keys && o.cache.Keys <= room
      && (Closed(cache) ==> Closed(o.cache))
  {
    match Lookup(cache, n)
    case Some(v) =>
      return Returned(v, cache), 0;
    case None =>
      o, evals := Miss(cache, n, maxCount, room);
  }

  /** The miss path: run `body`, then evict if full and store its result. */
  method Miss(cache: map<int, int>, n: int, maxCount: Option<nat>, ghost room: set<int>)
    returns (o: Outcome<int, int>, evals: nat)
    requires n !in cache
    requires Correct(cache)
    requires Within(cache, maxCount)
    decreases n, 2
    ensures o.Trapped? <==> maxCount == Some(0)
    ensures o.Returned? ==> o.value == Fib(n) && n in o.cache
    ensures o.Returned? ==> Correct(o.cache) && Within(o.cache, maxCount)
    ensures o.Returned? ==> Adds(cache, o.cache, n)
    ensures Fits(cache, n, room, maxCount) ==>
      o.Returned? && |o.cache| == |cache| + evals
      && cache.Keys <= o.cache.Keys && o.cache.Keys <= room
      && (Closed(cache) ==> Closed(o.cache))
  {
    var b, e := Body(cache, n, maxCount, room);
    if b.Trapped? {
      return Trapped, e;
    }
    ghost var fits := Fits(cache, n, room, maxCount);
    if fits {
      assert Reach(n, n);
      if maxCount.Some? {
        ProperSubsetSmaller(b.cache.Keys, room, n);
      }
      if Closed(cache) {
        ClosedStore(b.cache, n, b.value);
      }
    }
    o := Store(b.cache, n, b.value, maxCount);
    if o.Returned? {
      AddsThenStore(cache, b.cache, o.cache, n);
    }
    evals := e + 1;
  }

  /**
   * The original body, run on a miss: `if n <= one { return n }` and
   * otherwise `fibonacci(n - one) + fibonacci(n - two)`, both calls going
   * through the cache-checking `fibonacci`, left operand first. This method
   * makes the first call; `AddSecond` makes the second and adds. Its cache
   * is what those calls leave behind; they never store `n` itself.
   */
  method Body(cache: map<int, int>, n: int, maxCount: Option<nat>, ghost room: set<int>)
    returns (o: Outcome<int, int>, evals: nat)
    requires n !in cache
    requires Correct(cache)
    requires Within(cache, maxCount)
    decreases n, 1
    ensures o.Trapped? <==> maxCount == Some(0) && n > One
    ensures o.Returned? ==> o.value == Fib(n)
    ensures o.Returned? ==> Correct(o.cache) && Within(o.cache, maxCount)
    ensures o.Returned? ==> AddsBelow(cache, o.cache, n)
    ensures Fits(cache, n, room, maxCount) ==>
      o.Returned? && |o.cache| == |cache| + evals
      && cache.Keys <= o.cache.Keys && o.cache.Keys <= room
      && (n > One ==> n - One in o.cache && n - Two in o.cache)
      && (Closed(cache) ==> Closed(o.cache))
  {
    if n <= One {
      return Returned(n, cache), 0;
    }
    ghost var fits := Fits(cache, n, room, maxCount);
    if fits {
      FitsFirstCall(cache, n, room, maxCount);
    }
    var o1, e1 := Fibonacci(cache, n - One, maxCount, room);
    if o1.Trapped? {
      return Trapped, e1;
    }
    o, evals := AddSecond(cache, n, o1.value, o1.cache, e1, maxCount, room);
  }

  /**
   * The right operand `fibonacci(n - two)`, evaluated on the cache `mid`
   * the left operand `first` left behind after `e1` body evaluations,
   * and the sum.
   */
  method AddSecond(cache: map<int, int>, n: int, first: int, mid: map<int, int>, e1: nat,
                   maxCount: Option<nat>, ghost room: set<int>)
    returns (o: Outcome<int, int>, evals: nat)
    requires n > One && n !in cache && maxCount != Some(0)
    requires first == Fib(n - One)
    requires Correct(mid) && Within(mid, maxCount)
    requires Adds(cache, mid, n - One)
    requires Fits(cache, n, room, maxCount) ==>
      |mid| == |cache| + e1
      && cache.Keys <= mid.Keys && mid.Keys <= room
      && n - One in mid
      && (Closed(cache) ==> Closed(mid))
    decreases n, 0
    ensures o.Returned? && o.value == Fib(n)
    ensures Correct(o.cache) && Within(o.cache, maxCount)
    ensures AddsBelow(cache, o.cache, n)
    ensures Fits(cache, n, room, maxCount) ==>
      |o.cache| == |cache| + evals
      && cache.Keys <= o.cache.Keys && o.cache.Keys <= room
      && n - One in o.cache && n - Two in o.cache
      && (Closed(cache) ==> Closed(o.cache))
  {
    ghost var fits := Fits(cache, n, room, maxCount);
    if fits {
      FitsSecondCall(cache, mid, n, room, maxCount);
    }
    var o2, e2 := Fibonacci(mid, n - Two, maxCount, room);
    if o2.Trapped? {
      // only a bound of 0 traps, and then the first call already trapped
      assert false;
      return Trapped, e1;
    }
    ReachBothCalls(cache, mid, o2.cache, n);
    o := Returned(first + o2.value, o2.cache);
    evals := e1 + e2;
  }

  /**
   * From an emptied cache with room for `n + 1` entries, `fibonacci(n)`
   * (for `n >= 2`) runs the body once for each argument from 0 to `n`,
   * leaves exactly those arguments cached and never evicts.
   */
  method FromEmpty(cache: map<int, int>, n: int, maxCount: Option<nat>) returns (o: Outcome<int, int>, evals: nat)
    requires |cache| == 0 && n > One
    requires maxCount.Some? ==> n + 1 <= maxCount.value
    ensures o.Returned? && o.value == Fib(n)
    ensures Correct(o.cache) && Within(o.cache, maxCount)
    ensures o.cache.Keys == Upto(n) && |o.cache| == n + 1
    ensures evals == n + 1
  {
    assert cache == map[] by {
      assert forall k :: k !in cache;
    }
    UptoMembers(n);
    UptoSize(n);
    ghost var room := Upto(n);
    assert Fits(cache, n, room, maxCount);
    o, evals := Fibonacci(cache, n, maxCount, room);
    forall j | 0 <= j <= n
      ensures j in o.cache
    {
      assert Reach(n, j);
    }
    assert o.cache.Keys == room;
  }

  /** `fibonacci(40)` is 102 334 155, evaluated bottom-up. */
  lemma {:induction false} Fib40()
    ensures Fib(40) == 102334155
  {
    assert Fib(2) == 1;  assert Fib(3) == 2;  assert Fib(4) == 3;  assert Fib(5) == 5;
    assert Fib(6) == 8;  assert Fib(7) == 13;  assert Fib(8) == 21;  assert Fib(9) == 34;
    assert Fib(10) == 55;  assert Fib(11) == 89;  assert Fib(12) == 144;  assert Fib(13) == 233;
    assert Fib(14) == 377;  assert Fib(15) == 610;  assert Fib(16) == 987;  assert Fib(17) == 1597;
    assert Fib(18) == 2584;  assert Fib(19) == 4181;  assert Fib(20) == 6765;  assert Fib(21) == 10946;
    assert Fib(22) == 17711;  assert Fib(23) == 28657;  assert Fib(24) == 46368;  assert Fib(25) == 75025;
    assert Fib(26) == 121393;  assert Fib(27) == 196418;  assert Fib(28) == 317811;  assert Fib(29) == 514229;
    assert Fib(30) == 832040;  assert Fib(31) == 1346269;  assert Fib(32) == 2178309;  assert Fib(33) == 3524578;
    assert Fib(34) == 5702887;  assert Fib(35) == 9227465;  assert Fib(36) == 14930352;  assert Fib(37) == 24157817;
    assert Fib(38) == 39088169;  assert Fib(39) == 63245986;
  }
}
