# swift-memoize, modelled in Dafny

`@Memoized(maxCount:)` is a Swift macro. It turns a function into a
memoized one. The peer expansion declares two things next to the function:

- a cache dictionary `<name>_cache`, static when the function is static;
- a hashable key struct `<name>_parameters` with one stored property per
  parameter.

The body expansion renames the original body to a nested `body` function and
wraps it in the call protocol:

1. build the key from the arguments;
2. on a hit, return the stored result;
3. on a miss, run `body`, whose recursive calls go back through the memoized
   function and therefore through the same cache;
4. if a bound is set and the cache holds exactly that many entries, remove
   one entry picked by `randomElement()!`;
5. store the result and return it.

The demonstration program memoizes three functions:

- the free function `tarai2`, with one global cache;
- the instance method `Fib.fibonacci`, with one cache per object;
- the static method `Fib2.fibonacci`, with one cache for the type.

For each, the program empties the cache, calls the function and prints the
cache's count.

The Dafny project has these modules:

- `wrappers.dfy`, module `Wrappers`: `Option`.
- `memo_cache.dfy`, module `MemoCache`: the cache and the call protocol.
  It covers the lookup, the eviction guard, the arbitrary victim, the trap on
  an empty dictionary, `removeAll()`, and a one-shot call with its
  at-most-once property.
- `macro_expansion.dfy`, module `MacroExpansion`: what the macro reads from
  the declaration and derives from it. That is the `maxCount` bound, the
  cache and key-type names, the return type, `static` detection, the key
  struct's fields and the argument list of the generated calls.
- `fibonacci.dfy`, module `Fibonacci`: the memoized recursive `fibonacci`.
  It threads the cache through both sub-calls and counts body evaluations.
  It proves that every cached value is a Fibonacci number, that the bound
  holds, and that for `n >= 2`, from an empty cache with room for `n + 1`
  entries, `fibonacci(n)` runs the body once per argument `0..n` and leaves
  exactly those `n + 1` entries.
- `tarai.dfy`, module `Tarai`: the memoized `tarai2`. Its four recursive calls
  each go through the cache. Its result is proved equal to a closed form.
- `client.dfy`, module `Client`: the three cache scopes as one world. It also
  has the program's script and the values and counts it prints.

Eviction picks its victim with `randomElement()`. The model does not use a
random number: the victim is any existing key, chosen by `:|`, and every
property is proved for every choice. A forced unwrap of `nil` stops the
process; the model calls that outcome `Trapped`.

## Model

| member | source | states |
|---|---|---|
| MemoCache.Lookup | Sources/MemoizeMacros/MemoizeMacro.swift:76-79 | The lookup finds a result exactly when the key is cached, and the result it finds is the stored one. |
| MemoCache.Store | Sources/MemoizeMacros/MemoizeMacro.swift:81-85 | It traps exactly when the guard `count == maxCount` holds on an empty dictionary. Otherwise the key maps to the result and every other surviving entry is unchanged. Without eviction the cache is the old one plus the new entry. With eviction exactly one existing key is removed. For a new key the count grows by one, or stays at the bound. The capacity bound is preserved. |
| MemoCache.Call | Sources/MemoizeMacros/MemoizeMacro.swift:74-89 | The body runs exactly on a miss. A hit returns the stored value and leaves the cache unchanged. A miss returns the body's value and caches it, and without eviction the cache gains exactly that entry. A cache that agrees with the body keeps agreeing. The bound is kept. |
| MemoCache.CallTwice | Sources/MemoizeMacros/MemoizeMacro.swift:76-85 | Over two calls with the same key, the body runs at most once. The second call returns the first call's value and leaves its cache unchanged. |
| MemoCache.RemoveAll | Sources/MemoizeClient/main.swift:15 | `removeAll()` leaves a cache with count 0 and no key. |
| MemoCache.ResetThenCall | Sources/MemoizeClient/main.swift:15-17 | After `removeAll()`, a call always runs the body. It traps exactly when the bound is 0. Otherwise the cache holds just the new entry. |
| MacroExpansion.ParseLimit | Sources/MemoizeMacros/MemoizeMacro.swift:41-54 | A bound is found exactly when some argument labelled `maxCount` has an integer literal. The bound found is the literal of the first such argument. A missing argument list gives `nil`. |
| MacroExpansion.NamesInjective | Sources/MemoizeMacros/MemoizeMacro.swift:126-132 | Different function names give different cache names and different key-type names. |
| MacroExpansion.NamesNeverClash | Sources/MemoizeMacros/MemoizeMacro.swift:23 | A cache name never equals a key-type name, whatever the two functions are. |
| MacroExpansion.IsStaticFunction | Sources/MemoizeMacros/MemoizeMacro.swift:138-146 | The result is true exactly when `static` is among the modifiers. |
| MacroExpansion.PeerCache | Sources/MemoizeMacros/MemoizeMacro.swift:18-24 | The cache is static exactly when the function is. It is named after the function and keyed by the function's key struct, and its name differs from the key type's. It holds the declared return type, or `Void` when there is none. |
| MacroExpansion.KeyFieldsAsWritten | Sources/MemoizeMacros/MemoizeMacro.swift:96-114 | The key struct is defined exactly when every parameter has a name. It has one field per parameter, in order. A field is labelled by the argument label, or by the parameter name for `_`, has the parameter's type and is assigned from the parameter. |
| MacroExpansion.AsWrittenLabelsCollide | Sources/MemoizeMacros/MemoizeMacro.swift:107-114 | For `f(a x: Int, a y: Int)`, a legal parameter list, the fields as written carry the same label twice. |
| MacroExpansion.KeyFields | Sources/MemoizeMacros/MemoizeMacro.swift:96-114 | Corrected key fields have the same types and sources, labelled by parameter name. Their labels are distinct whenever the parameter names are, as Swift requires. |
| MacroExpansion.KeyFieldsAgreeOffLabels | Sources/MemoizeMacros/MemoizeMacro.swift:98-110 | The corrected and the as-written fields agree on types and sources. They also agree on labels for every `_` parameter. |
| MacroExpansion.CallArguments | Sources/MemoizeMacros/MemoizeMacro.swift:64-73 | The generated argument list is defined exactly when every parameter has a name. It has one argument per parameter, under the parameter's external label (none for `_`), passing the parameter. |
| MacroExpansion.KeyHoldsArguments | Sources/MemoizeMacros/MemoizeMacro.swift:76 | The key built from the call has as many fields as the call has arguments. Field `i` receives the value passed for parameter `i`. This holds for the as-written labels and for the corrected ones. |
| Fibonacci.VisitedIsReach | Sources/MemoizeClient/main.swift:25-28 | The arguments the recursive call tree of `fibonacci(n)` visits are exactly `n`, together with `0..n-1` when `n >= 2`. |
| Fibonacci.Fibonacci | Sources/MemoizeClient/main.swift:24-28 | A hit returns the stored value with no body evaluation. Otherwise the result is `Fib(n)` and `n` is cached. Every cached value stays correct and the bound holds. It traps exactly when the bound is 0. It adds only arguments that the call tree of `n` reaches. Under a budget that fits the bound, three more facts hold. It never evicts. The count grows by the number of body evaluations. A closed cache stays closed. |
| Fibonacci.Miss | Sources/MemoizeMacros/MemoizeMacro.swift:80-85 | On a miss, the result of the body is stored under `n`, with the same guarantees as above. |
| Fibonacci.Body | Sources/MemoizeClient/main.swift:26-27 | The body returns `n` for `n <= 1`, and otherwise `Fib(n)` through the cache. It traps exactly when the bound is 0 and `n >= 2`. It adds only arguments below `n` that the call tree reaches, and never `n`. Without eviction it leaves both `n - 1` and `n - 2` cached. |
| Fibonacci.AddSecond | Sources/MemoizeClient/main.swift:27 | The right operand is evaluated on the cache the left one left behind, and the sum is `Fib(n)`. It cannot trap once the left operand returned. |
| Fibonacci.FromEmpty | Sources/MemoizeClient/main.swift:33-37 | This holds for `n >= 2`, starting from an emptied cache whose bound is at least `n + 1`. Then `fibonacci(n)` returns `Fib(n)`. It runs the body exactly `n + 1` times and leaves exactly the keys `0..n`, so the count is `n + 1`. |
| Fibonacci.Fib40 | Sources/MemoizeClient/main.swift:35 | `fibonacci(40)` is 102334155. |
| Tarai.TaraiRecurrence | Sources/MemoizeClient/main.swift:5-12 | The closed form satisfies the body's equations: it is `y` when `x <= y`, and otherwise the function of the three recursive results. |
| Tarai.Tarai2 | Sources/MemoizeClient/main.swift:3-13 | A hit returns the stored value and leaves the cache unchanged. A finished run traps exactly when the bound is 0. Otherwise it returns the closed form, caches the arguments, keeps every cached value correct and keeps the bound. When `x <= y` and the bound is not 0, it returns `y`. |
| Tarai.Body | Sources/MemoizeClient/main.swift:5-12 | When `x <= y` the body returns `y` with the cache unchanged. Otherwise, when the run finishes, its four cached calls return the closed form. They keep every cached value correct and the bound. |
| Client.ReadScopes | Sources/MemoizeMacros/MemoizeMacro.swift:18-23 | The peer declarations the three attributed functions get: `tarai2_cache` and `Fib`'s `fibonacci_cache` are not static, which makes them global and per object, and `Fib2`'s `fibonacci_cache` is static, which makes it per type. These are the scopes `World` gives the three caches. |
| Client.ReadLimits | Sources/MemoizeClient/main.swift:3 | The attributes `maxCount:1000` and `maxCount:150` yield the bounds 1000 and 150. |
| Client.NewFib | Sources/MemoizeClient/main.swift:31 | A new `Fib` object gets a fresh identity and an empty cache of its own. Every other cache is unchanged. |
| Client.FibOnInstance | Sources/MemoizeClient/main.swift:21-29 | `fib.fibonacci(n)` returns `Fib(n)`. It changes only that object's cache, and no other object's, the static one or the global one. |
| Client.Fib2Static | Sources/MemoizeClient/main.swift:39-47 | `Fib2.fibonacci(n)` returns `Fib(n)`. It changes only the type's cache, and no object's cache. |
| Client.Tarai2Global | Sources/MemoizeClient/main.swift:3-13 | `tarai2` changes only the global cache. A finished call returns the closed form and caches its arguments. |
| Client.TaraiScript | Sources/MemoizeClient/main.swift:15-19 | After `removeAll()`, `tarai2(x: 20, y: 10, z: 0)` prints 20 if it finishes. The count printed is at most 1000. |
| Client.FibScript | Sources/MemoizeClient/main.swift:31-37 | A new object with its cache emptied prints 102334155 and then 41. |
| Client.Fib2Script | Sources/MemoizeClient/main.swift:49-53 | With the static cache emptied, it prints 102334155 and then 41. |
| Client.Script | Sources/MemoizeClient/main.swift:15-53 | The whole program prints 20 (when the tarai run finishes), then a count of at most 1000, then 102334155 and 41 twice. Every cache stays correct and within its bound. |

## Left out

- Tarai.Tarai2: it does not prove that `tarai2` terminates. Every call carries fuel, and a run that exhausts it reports `OutOfFuel`. Facts about results hold only for runs that finish; for `x > y` a run may always stop with `OutOfFuel`.
- Tarai.Body: the same fuel gap. When `x > y`, its result facts hold only when all four recursive calls finish within the fuel.
- Client.Tarai2Global: the same fuel gap. It returns `None` when the fuel runs out, so a value is promised only for a finished run.
- Client.TaraiScript: the same fuel gap, so 20 is promised only when the run finishes. The count is at most 1000, not the exact count of the run. The exact count is the number of distinct argument triples the run visits, and the model does not compute it.
- Client.Script: the same fuel gap for its `tarai2` part, so 20 is promised only when that run finishes. The `tarai2` count is at most 1000 rather than exact.
- Fibonacci.Fibonacci: the count, key-growth and closedness facts are stated only under a budget (`room`) that fits the bound. Once eviction happens, which entries survive depends on the random picks. That only reached arguments are added holds without the budget.
- 64-bit `Int`: integers are unbounded. `Fib(n)` overflows `Int` from `n = 93` on, and `tarai2` at `Int.min - 1`. Neither happens in the program.
- A bound of 0 traps, as the forced unwrap on an empty dictionary does. It is not treated as "caching disabled".
- The generated source text, the SwiftSyntax trees, `fatalError()` diagnostics and the compiler plugin registration (`MemoizePlugin`) are left out. They are code generation; only what that code generation decides is modelled.
- `isGlobalScope` is never called by the expansion.
- The spelling of an integer literal (`1_000`, `0x3e8`) is represented by its value. A literal too large for `Int` is rejected by the compiler, which is not modelled.
- A key is the tuple of argument values (`int` for `fibonacci`, `Args` for `tarai2`), not a generated struct. The key equality that `Hashable` synthesis gives is assumed to be equality of those values.
- The order in which `randomElement()` picks is not modelled. The victim is any existing key.
- `nonisolated(unsafe)` caches and concurrent calls are left out. The model is single-threaded, as the program is.
- `print` output is the methods' return values. `Package.swift` is not part of this model.

## Findings

| source | as written | input that shows it | evidently intended | confidence | as-written member | corrected member |
|---|---|---|---|---|---|---|
| Sources/MemoizeMacros/MemoizeMacro.swift:96-114 | A labelled parameter's key field is named after its argument label. | `func f(a x: Int, a y: Int)`: Swift accepts the repeated label, and the key struct then declares `let a: Int` twice. | Fields named after the parameter names, which Swift keeps distinct. | not executed | MacroExpansion.AsWrittenLabelsCollide | MacroExpansion.KeyFields |
