/**
 * What the `@Memoized` macro reads from the declaration it is attached to,
 * and the names, labels and bound it derives for the generated code. The
 * syntax tree is reduced to the few facts the macro inspects; the generated
 * text itself is not modelled, only its ingredients.
 */
module MacroExpansion {
  import opened Wrappers

  // ------------------------------------------------------------ syntax

  /** An attribute argument expression: an integer literal (with the value
      its text denotes) or anything else. */
  datatype Expr = IntegerLiteral(value: nat) | OtherExpr

  /** One labelled argument of `@Memoized(...)`. */
  datatype Argument = Argument(argLabel: Option<string>, expr: Expr)

  /** The first name of a parameter: `_` or an argument label. */
  datatype FirstName = Wildcard | Label(text: string)

  /** A function parameter: its first name, the name the body uses (absent
      for `_: T` or `a _: T`), and its type as written. */
  datatype Param = Param(firstName: FirstName, parameterName: Option<string>, typeName: string)

  /** The parts of a function declaration the macro looks at. */
  datatype FuncDecl = FuncDecl(name: string, modifiers: seq<string>, params: seq<Param>, returnType: Option<string>)

  /** One stored property of the key struct, `let <label>: <typeName>`,
      assigned by its initializer from the parameter `source`. */
  datatype Field = Field(fieldLabel: string, typeName: string, source: string)

  /** One argument in the generated calls `<name>_parameters(...)` and
      `body(...)`: an optional label and the parameter passed. */
  datatype CallArg = CallArg(argLabel: Option<string>, value: string)

  /** The generated cache property: `[static ]var <name>: [<keyType>: <valueType>]`. */
  datatype CacheDecl = CacheDecl(isStatic: bool, name: string, keyType: string, valueType: string)

  // ------------------------------------------------------------ maxCount

  /** An argument that sets the bound: labelled `maxCount`, with an integer literal. */
  predicate SetsLimit(a: Argument) {
    a.argLabel == Some("maxCount") && a.expr.IntegerLiteral?
  }

  /** `args[i]` is the first argument that sets the bound, and sets it to `value`. */
  predicate FirstLimitAt(args: seq<Argument>, i: int, value: nat) {
    && 0 <= i < |args|
    && SetsLimit(args[i])
    && args[i].expr.value == value
    && forall j :: 0 <= j < i ==> !SetsLimit(args[j])
  }

  /**
   * The bound the body expansion emits as `let maxCount: Int? = ...`: the
   * literal of the first argument that sets it, scanning left to right and
   * skipping `maxCount` arguments that are not literals; `nil` when there
   * is none, including when the attribute has no argument list.
   */
  method ParseLimit(arguments: Option<seq<Argument>>) returns (limit: Option<nat>)
    ensures arguments.None? ==> limit.None?
    ensures arguments.Some? ==>
      (limit.Some? <==> exists i :: 0 <= i < |arguments.value| && SetsLimit(arguments.value[i]))
    ensures limit.Some? ==>
      && arguments.Some?
      && exists i :: FirstLimitAt(arguments.value, i, limit.value)
  {
    limit := None;
    var args := arguments.GetOr([]);
    var i := 0;
    while i < |args|
      invariant 0 <= i <= |args|
      invariant arguments.None? ==> args == []
      invariant arguments.Some? ==> args == arguments.value
      invariant forall j :: 0 <= j < i ==> !SetsLimit(args[j])
      invariant limit.None?
    {
      var a := args[i];
      if a.argLabel.Some? && a.argLabel.value == "maxCount" {
        if a.expr.IntegerLiteral? {
          limit := Some(a.expr.value);
          assert FirstLimitAt(args, i, limit.value);
          return;
        }
      }
      i := i + 1;
    }
  }

  // ------------------------------------------------------------ names

  /** `cacheName`: the cache property is named `<name>_cache`. */
  function CacheName(name: string): (r: string)
    ensures |r| == |name| + 6 && r[..|name|] == name
  {
    name + "_cache"
  }

  /** `paramsType`: the key struct is named `<name>_parameters`. */
  function ParamsType(name: string): (r: string)
    ensures |r| == |name| + 11 && r[..|name|] == name
  {
    name + "_parameters"
  }

  /** Distinct functions get distinct caches and key types. */
  lemma NamesInjective(a: string, b: string)
    ensures CacheName(a) == CacheName(b) ==> a == b
    ensures ParamsType(a) == ParamsType(b) ==> a == b
  {
    if CacheName(a) == CacheName(b) {
      assert a == CacheName(a)[..|a|];
    }
    if ParamsType(a) == ParamsType(b) {
      assert a == ParamsType(a)[..|a|];
    }
  }

  /** A cache name is never a key type name, whatever the two functions. */
  lemma NamesNeverClash(a: string, b: string)
    ensures CacheName(a) != ParamsType(b)
  {
    var c, p := CacheName(a), ParamsType(b);
    assert c[|c| - 1] == 'e';
    assert p[|p| - 1] == 's';
  }

  /** `returnType`: the declared return type, `Void` when there is none. */
  function ReturnType(f: FuncDecl): (r: string)
    ensures f.returnType.Some? ==> r == f.returnType.value
    ensures f.returnType.None? ==> r == "Void"
  {
    f.returnType.GetOr("Void")
  }

  /** `isStaticFunction`: scans the modifiers for `static`. */
  method IsStaticFunction(f: FuncDecl) returns (isStatic: bool)
    ensures isStatic <==> "static" in f.modifiers
  {
    var i := 0;
    while i < |f.modifiers|
      invariant 0 <= i <= |f.modifiers|
      invariant "static" !in f.modifiers[..i]
    {
      if f.modifiers[i] == "static" {
        return true;
      }
      i := i + 1;
    }
    assert f.modifiers[..i] == f.modifiers;
    return false;
  }

  /** The peer declaration: a cache named after the function, keyed by its
      key struct, holding its return type, static exactly when the function is. */
  method PeerCache(f: FuncDecl) returns (d: CacheDecl)
    ensures d.isStatic <==> "static" in f.modifiers
    ensures d.name == CacheName(f.name) && d.keyType == ParamsType(f.name)
    ensures d.name != d.keyType
    ensures f.returnType.None? ==> d.valueType == "Void"
    ensures f.returnType.Some? ==> d.valueType == f.returnType.value
  {
    var isStatic := IsStaticFunction(f);
    NamesNeverClash(f.name, f.name);
    d := CacheDecl(isStatic, CacheName(f.name), ParamsType(f.name), ReturnType(f));
  }

  // ------------------------------------------------------------ keys

  /** Every parameter has a name the body can use; otherwise the expansion
      stops with `fatalError()`. */
  predicate AllNamed(ps: seq<Param>) {
    forall i :: 0 <= i < |ps| ==> ps[i].parameterName.Some?
  }

  /** The label a call passes parameter `p` under: none for `_`, else its first name. */
  function ExternalLabel(p: Param): Option<string> {
    if p.firstName.Wildcard? then None else Some(p.firstName.text)
  }

  /** The key struct's field label for `p` as written: the parameter name
      for `_`, otherwise the argument label. */
  function FieldLabel(p: Param): string
    requires p.parameterName.Some?
  {
    if p.firstName.Wildcard? then p.parameterName.value else p.firstName.text
  }

  /**
   * The key struct's fields as `parametersValue` declares and initializes
   * them: one per parameter, in order, labelled by `FieldLabel`, assigned
   * from the parameter; `None` when a parameter has no name.
   */
  function KeyFieldsAsWritten(ps: seq<Param>): (r: Option<seq<Field>>)
    ensures r.Some? <==> AllNamed(ps)
    ensures r.Some? ==> |r.value| == |ps| && forall i :: 0 <= i < |ps| ==>
      r.value[i] == Field(FieldLabel(ps[i]), ps[i].typeName, ps[i].parameterName.value)
  {
    if ps == [] then Some([])
    else if ps[0].parameterName.None? then None
    else match KeyFieldsAsWritten(ps[1..])
      case None => None
      case Some(rest) => Some([Field(FieldLabel(ps[0]), ps[0].typeName, ps[0].parameterName.value)] + rest)
  }

  /** Swift's own rule for a parameter list: the names the body uses differ. */
  predicate DistinctNames(ps: seq<Param>)
    requires AllNamed(ps)
  {
    forall i, j :: 0 <= i < j < |ps| ==> ps[i].parameterName.value != ps[j].parameterName.value
  }

  predicate DistinctLabels(fs: seq<Field>) {
    forall i, j :: 0 <= i < j < |fs| ==> fs[i].fieldLabel != fs[j].fieldLabel
  }

  /** Swift lets two parameters share an argument label, as in
      `f(a x: Int, a y: Int)`; the labels as written then name two fields
      `a`, and the key struct does not compile. */
  lemma AsWrittenLabelsCollide()
    ensures var ps := [Param(Label("a"), Some("x"), "Int"), Param(Label("a"), Some("y"), "Int")];
      AllNamed(ps) && DistinctNames(ps)
      && KeyFieldsAsWritten(ps).Some? && !DistinctLabels(KeyFieldsAsWritten(ps).value)
  {
    var ps := [Param(Label("a"), Some("x"), "Int"), Param(Label("a"), Some("y"), "Int")];
    var fs := KeyFieldsAsWritten(ps).value;
    assert fs[0].fieldLabel == fs[1].fieldLabel;
  }

  /**
   * The key struct's fields labelled by parameter name instead: the same
   * types and sources, and labels that are distinct whenever the
   * declaration is legal Swift.
   */
  function KeyFields(ps: seq<Param>): (r: Option<seq<Field>>)
    ensures r.Some? <==> AllNamed(ps)
    ensures r.Some? ==> |r.value| == |ps| && forall i :: 0 <= i < |ps| ==>
      r.value[i] == Field(ps[i].parameterName.value, ps[i].typeName, ps[i].parameterName.value)
    ensures r.Some? && DistinctNames(ps) ==> DistinctLabels(r.value)
  {
    if ps == [] then Some([])
    else if ps[0].parameterName.None? then None
    else match KeyFields(ps[1..])
      case None => None
      case Some(rest) => Some([Field(ps[0].parameterName.value, ps[0].typeName, ps[0].parameterName.value)] + rest)
  }

  /** The two labelings agree on every parameter that has no argument label
      of its own, and on types and sources everywhere. */
  lemma KeyFieldsAgreeOffLabels(ps: seq<Param>)
    requires AllNamed(ps)
    ensures forall i :: 0 <= i < |ps| ==>
      KeyFields(ps).value[i].typeName == KeyFieldsAsWritten(ps).value[i].typeName
      && KeyFields(ps).value[i].source == KeyFieldsAsWritten(ps).value[i].source
      && (ps[i].firstName.Wildcard? ==> KeyFields(ps).value[i].fieldLabel == KeyFieldsAsWritten(ps).value[i].fieldLabel)
  {
  }

  /**
   * The argument list `functionBody` builds and passes both to the key
   * initializer and to `body`: each parameter under its own argument label
   * (bare for `_`); `None` when a parameter has no name.
   */
  function CallArguments(ps: seq<Param>): (r: Option<seq<CallArg>>)
    ensures r.Some? <==> AllNamed(ps)
    ensures r.Some? ==> |r.value| == |ps| && forall i :: 0 <= i < |ps| ==>
      r.value[i].argLabel == ExternalLabel(ps[i]) && r.value[i].value == ps[i].parameterName.value
  {
    if ps == [] then Some([])
    else if ps[0].parameterName.None? then None
    else match CallArguments(ps[1..])
      case None => None
      case Some(rest) => Some([CallArg(ExternalLabel(ps[0]), ps[0].parameterName.value)] + rest)
  }

  /**
   * Key derivation: the key initializer takes the function's own parameter
   * clause, so the generated call matches it position by position, and
   * field `i` of the key receives exactly the value passed for parameter `i`,
   * under either labelling.
   */
  lemma KeyHoldsArguments(ps: seq<Param>)
    requires AllNamed(ps)
    ensures CallArguments(ps).Some? && KeyFields(ps).Some?
    ensures |CallArguments(ps).value| == |KeyFields(ps).value|
    ensures forall i :: 0 <= i < |ps| ==>
      CallArguments(ps).value[i].value == KeyFields(ps).value[i].source
    ensures KeyFieldsAsWritten(ps).Some? && |CallArguments(ps).value| == |KeyFieldsAsWritten(ps).value|
    ensures forall i :: 0 <= i < |ps| ==>
      CallArguments(ps).value[i].value == KeyFieldsAsWritten(ps).value[i].source
  {
  }
}
