/**
 * The demonstration program: where each memoized function's cache lives,
 * and the script that empties a cache, calls the function and reads the
 * cache's count.
 *
 * The macro gives a free function one global cache, an instance method one
 * cache per object, and a static method one cache for its type. The world
 * below holds all three kinds: `tarai2_cache`, each `Fib` object's
 * `fibonacci_cache`, and `Fib2.fibonacci_cache`. Objects are named by an
 * allocation number,
 * and `nextObject` is the number the next object gets.
 */
module Client {
  import opened Wrappers
  import opened MemoCache
  import MacroExpansion
  import Fibonacci
  import Tarai

  datatype World = World(
    tarai2Cache: map<Tarai.Args, int>,
    fibCaches: map<nat, map<int, int>>,
    fib2Cache: map<int, int>,
    nextObject: nat)

  /** `@Memoized(maxCount:1000)` on `tarai2`. */
  const TaraiAttribute: seq<MacroExpansion.Argument> :=
    [MacroExpansion.Argument(Some("maxCount"), MacroExpansion.IntegerLiteral(1000))]

  /** `@Memoized(maxCount:150)` on both `fibonacci` methods. */
  const FibAttribute: seq<MacroExpansion.Argument> :=
    [MacroExpansion.Argument(Some("maxCount"), MacroExpansion.IntegerLiteral(150))]

  const TaraiLimit: Option<nat> := Some(1000)
  const FibLimit: Option<nat> := Some(150)

  /** The bounds above are what the body expansion reads off the attributes. */
  method ReadLimits() returns (tarai: Option<nat>, fib: Option<nat>)
    ensures tarai == TaraiLimit && fib == FibLimit
  {
    tarai := MacroExpansion.ParseLimit(Some(TaraiAttribute));
    assert MacroExpansion.SetsLimit(TaraiAttribute[0]);
    fib := MacroExpansion.ParseLimit(Some(FibAttribute));
    assert MacroExpansion.SetsLimit(FibAttribute[0]);
  }

  /** The three declarations the macro is attached to. */
  const TaraiDecl := MacroExpansion.FuncDecl("tarai2", [], [
    MacroExpansion.Param(MacroExpansion.Label("x"), Some("x"), "Int"),
    MacroExpansion.Param(MacroExpansion.Label("y"), Some("y"), "Int"),
    MacroExpansion.Param(MacroExpansion.Label("z"), Some("z"), "Int")], Some("Int"))
  const FibDecl := MacroExpansion.FuncDecl("fibonacci", [],
    [MacroExpansion.Param(MacroExpansion.Wildcard, Some("n"), "Int")], Some("Int"))
  const Fib2Decl := MacroExpansion.FuncDecl("fibonacci", ["static"],
    [MacroExpansion.Param(MacroExpansion.Wildcard, Some("n"), "Int")], Some("Int"))

  /** `tarai2` is a free function: its cache is not static, so it is global. */
  method TaraiScope() returns (d: MacroExpansion.CacheDecl)
    ensures !d.isStatic && d.name == "tarai2_cache" && d.keyType == "tarai2_parameters" && d.valueType == "Int"
  {
    d := MacroExpansion.PeerCache(TaraiDecl);
  }

  /** `Fib.fibonacci` is an instance method: its cache is a stored property
      of each object. */
  method FibScope() returns (d: MacroExpansion.CacheDecl)
    ensures !d.isStatic && d.name == "fibonacci_cache" && d.keyType == "fibonacci_parameters" && d.valueType == "Int"
  {
    d := MacroExpansion.PeerCache(FibDecl);
  }

  /** `Fib2.fibonacci` is static: its cache is one static property of the type. */
  method Fib2Scope() returns (d: MacroExpansion.CacheDecl)
    ensures d.isStatic && d.name == "fibonacci_cache" && d.keyType == "fibonacci_parameters" && d.valueType == "Int"
  {
    d := MacroExpansion.PeerCache(Fib2Decl);
    assert Fib2Decl.modifiers[0] == "static";
  }

  /** The scopes `World` gives the caches are the ones the peer expansion
      declares: two non-static caches (global and per object) and one
      static one (per type). */
  method ReadScopes() returns (tarai: MacroExpansion.CacheDecl, fib: MacroExpansion.CacheDecl, fib2: MacroExpansion.CacheDecl)
    ensures !tarai.isStatic && tarai.name == "tarai2_cache"
    ensures !fib.isStatic && fib.name == "fibonacci_cache"
    ensures fib2.isStatic && fib2.name == "fibonacci_cache"
  {
    tarai := TaraiScope();
    fib := FibScope();
    fib2 := Fib2Scope();
  }

  /** Every cache in the world holds correct values and respects its bound. */
  predicate Valid(w: World) {
    && Tarai.Good(w.tarai2Cache, TaraiLimit)
    && (forall id :: id in w.fibCaches ==> Fibonacci.Correct(w.fibCaches[id]) && Within(w.fibCaches[id], FibLimit))
    && Fibonacci.Correct(w.fib2Cache) && Within(w.fib2Cache, FibLimit)
    && (forall id :: id in w.fibCaches ==> id < w.nextObject)
  }

  /** Replacing one object's cache by a good cache keeps the world valid. */
  lemma ReplaceObjectCache(w: World, id: nat, c: map<int, int>)
    requires Valid(w) && id in w.fibCaches
    requires Fibonacci.Correct(c) && Within(c, FibLimit)
    ensures Valid(w.(fibCaches := w.fibCaches[id := c]))
  {
    var m := w.fibCaches[id := c];
    forall j | j in m
      ensures Fibonacci.Correct(m[j]) && Within(m[j], FibLimit) && j < w.nextObject
    {
      if j != id {
        assert m[j] == w.fibCaches[j];
      }
    }
  }

  /** `Fib()`: a new object, with its own empty cache. */
  method NewFib(w: World) returns (w': World, id: nat)
    requires Valid(w)
    ensures Valid(w')
    ensures id !in w.fibCaches && w'.fibCaches == w.fibCaches[id := map[]]
    ensures w'.tarai2Cache == w.tarai2Cache && w'.fib2Cache == w.fib2Cache
  {
    id := w.nextObject;
    w' := w.(fibCaches := w.fibCaches[id := map[]], nextObject := id + 1);
  }

  /** `fib.fibonacci(n)` on the object `id`: only that object's cache changes. */
  method FibOnInstance(w: World, id: nat, n: int) returns (w': World, value: int)
    requires Valid(w) && id in w.fibCaches
    ensures Valid(w') && value == Fibonacci.Fib(n)
    ensures w'.fibCaches.Keys == w.fibCaches.Keys
    ensures forall other :: other in w.fibCaches && other != id ==> w'.fibCaches[other] == w.fibCaches[other]
    ensures w'.tarai2Cache == w.tarai2Cache && w'.fib2Cache == w.fib2Cache && w'.nextObject == w.nextObject
  {
    var o, _ := Fibonacci.Fibonacci(w.fibCaches[id], n, FibLimit, {});
    value := o.value;
    ReplaceObjectCache(w, id, o.cache);
    w' := w.(fibCaches := w.fibCaches[id := o.cache]);
  }

  /** `Fib2.fibonacci(n)`: the one type-wide cache changes, no object's does. */
  method Fib2Static(w: World, n: int) returns (w': World, value: int)
    requires Valid(w)
    ensures Valid(w') && value == Fibonacci.Fib(n)
    ensures w'.fibCaches == w.fibCaches && w'.tarai2Cache == w.tarai2Cache && w'.nextObject == w.nextObject
  {
    var o, _ := Fibonacci.Fibonacci(w.fib2Cache, n, FibLimit, {});
    value := o.value;
    w' := w.(fib2Cache := o.cache);
  }

  /** `tarai2(x:y:z:)`: the global cache changes; `None` when fuel ran out. */
  method Tarai2Global(w: World, a: Tarai.Args, fuel: nat) returns (w': World, value: Option<int>)
    requires Valid(w)
    ensures Valid(w')
    ensures value.Some? ==> value.value == Tarai.Tarai(a) && a in w'.tarai2Cache
    ensures a.x <= a.y ==> value == Some(a.y)
    ensures w'.fibCaches == w.fibCaches && w'.fib2Cache == w.fib2Cache && w'.nextObject == w.nextObject
  {
    var r := Tarai.Tarai2(w.tarai2Cache, a, TaraiLimit, fuel);
    if r.OutOfFuel? {
      return w, None;
    }
    value := Some(r.outcome.value);
    w' := w.(tarai2Cache := r.outcome.cache);
  }

  /** Lines 15-19: empty `tarai2_cache`, call `tarai2(x: 20, y: 10, z: 0)`,
      read the count. */
  method TaraiScript(w: World, fuel: nat) returns (w': World, value: Option<int>, count: nat)
    requires Valid(w)
    ensures Valid(w')
    ensures value.Some? ==> value.value == 20
    ensures count == |w'.tarai2Cache| && count <= 1000
    ensures w'.fibCaches == w.fibCaches && w'.fib2Cache == w.fib2Cache && w'.nextObject == w.nextObject
  {
    w' := w.(tarai2Cache := RemoveAll(w.tarai2Cache));
    w', value := Tarai2Global(w', Tarai.Args(20, 10, 0), fuel);
    count := |w'.tarai2Cache|;
  }

  /** Lines 31-37: make a `Fib`, empty its cache, call `fibonacci(40)`,
      read the count. */
  method FibScript(w: World) returns (w': World, id: nat, value: int, count: nat)
    requires Valid(w)
    ensures Valid(w')
    ensures value == 102334155 && count == 41
    ensures id !in w.fibCaches && id in w'.fibCaches && count == |w'.fibCaches[id]|
    ensures w'.tarai2Cache == w.tarai2Cache && w'.fib2Cache == w.fib2Cache
  {
    w', id := NewFib(w);
    var emptied := RemoveAll(w'.fibCaches[id]);
    var o, _ := Fibonacci.FromEmpty(emptied, 40, FibLimit);
    Fibonacci.Fib40();
    ReplaceObjectCache(w', id, o.cache);
    w' := w'.(fibCaches := w'.fibCaches[id := o.cache]);
    value, count := o.value, |o.cache|;
  }

  /** Lines 49-53: empty `Fib2.fibonacci_cache`, call `Fib2.fibonacci(40)`,
      read the count. */
  method Fib2Script(w: World) returns (w': World, value: int, count: nat)
    requires Valid(w)
    ensures Valid(w')
    ensures value == 102334155 && count == 41 && count == |w'.fib2Cache|
    ensures w'.tarai2Cache == w.tarai2Cache && w'.fibCaches == w.fibCaches && w'.nextObject == w.nextObject
  {
    var emptied := RemoveAll(w.fib2Cache);
    var o, _ := Fibonacci.FromEmpty(emptied, 40, FibLimit);
    Fibonacci.Fib40();
    w' := w.(fib2Cache := o.cache);
    value, count := o.value, |o.cache|;
  }

  /**
   * The whole script, in order. The results are what it prints: 20 with at
   * most 1000 entries when the tarai run finishes, and 102334155 with 41
   * entries for both Fibonacci caches.
   */
  method Script(w: World, fuel: nat)
    returns (w': World, tarai: Option<int>, taraiCount: nat, fib: int, fibCount: nat, fib2: int, fib2Count: nat)
    requires Valid(w)
    ensures Valid(w')
    ensures tarai.Some? ==> tarai.value == 20
    ensures taraiCount <= 1000
    ensures fib == 102334155 && fibCount == 41
    ensures fib2 == 102334155 && fib2Count == 41
  {
    w', tarai, taraiCount := TaraiScript(w, fuel);
    var fibObject;
    w', fibObject, fib, fibCount := FibScript(w');
    w', fib2, fib2Count := Fib2Script(w');
  }
}
